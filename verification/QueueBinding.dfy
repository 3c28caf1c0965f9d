/** One socket per queue and processor: Ipc_attach and Ipc_detach of processors racing MessageQ_create and
  * MessageQ_delete of queues in one process. A transport is registered and unregistered outside the
  * MessageQ gate; queues are bound and unbound by scans under the gate, over the queues or over the
  * transports. A delete has the daemon free the queue's index before it takes the gate, so another create
  * may be given that index while the old queue is still bound. */
module QueueBinding {
  import opened Counting

  const GROWSIZE: nat := 32

  /** Ipc_attach of one processor: the transport is registered, then all published queues are bound,
    * queue r next. Ipc_detach: all published queues are unbound, then the transport is unregistered and
    * deleted; in between it is draining. */
  datatype Attach = Detached | Registered | BindingQueues(r: nat) | Attached | UnbindingQueues(r: nat) | Draining

  /** One queue object: given an index by the daemon, bound to every registered transport, processor r
    * next, then published; for a delete the daemon frees the index first, then the queue is unbound. */
  datatype Pc = Unborn | Created | BindingTo(r: nat) | Live | Freed | UnbindingFrom(r: nat) | Gone

  datatype Queue = Queue(index: nat, pc: Pc)

  datatype Gate = Free | ByProc(p: nat) | ByQueue(o: nat)

  /** published[q] is the queue object at index q of the module's array. table: the transports' index
    * tables, as pairs of processor and queue index. sockets counts the open sockets of each pair.
    * History: overrun holds the live queues whose index the delete of another queue has entered the gate
    * for since they were published; late the pairs bound by a create while the processor was draining, and
    * not unbound since; lost the sockets that were in the index table of a transport when it was deleted. */
  datatype State = State(
    procs: seq<Attach>, queues: seq<Queue>, published: seq<Option<nat>>, gate: Gate,
    table: set<(nat, nat)>, sockets: multiset<(nat, nat)>, overrun: set<nat>,
    late: set<(nat, nat)>, lost: multiset<(nat, nat)>)

  // ---------------------------------------------------------------- transport

  /** TransportRpmsg_bind: nothing when the queue index is bound already. */
  function Bind(s: State, p: nat, q: nat): State {
    if (p, q) in s.table then s
    else s.(table := s.table + {(p, q)}, sockets := s.sockets + multiset{(p, q)})
  }

  /** TransportRpmsg_unbind: nothing when the queue index is not bound. */
  function Unbind(s: State, p: nat, q: nat): State {
    if (p, q) in s.table then s.(table := s.table - {(p, q)}, sockets := s.sockets - multiset{(p, q)})
    else s
  }

  predicate IsRegistered(s: State, p: nat) {
    p < |s.procs| && !s.procs[p].Detached?
  }

  /** The array at index q, none past its end. */
  function At(published: seq<Option<nat>>, q: nat): Option<nat> {
    if q < |published| then published[q] else None
  }

  /** The queues array grows to hold index q and 32 more. */
  function Grown<T>(a: seq<T>, q: nat, none: T): (r: seq<T>)
    ensures q < |r|
  {
    if q < |a| then a else a + seq(q + GROWSIZE - |a|, _ => none)
  }

  // ---------------------------------------------------------------- steps

  datatype Step =
    | Register(p: nat) | EnterAttach(p: nat) | BindQueue(p: nat) | LeaveAttach(p: nat)
    | EnterDetach(p: nat) | UnbindQueue(p: nat) | LeaveDetach(p: nat) | Unregister(p: nat)
    | Create(o: nat, index: nat) | EnterCreate(o: nat) | BindProc(o: nat, p: nat) | LeaveCreate(o: nat)
    | FreeIndex(o: nat) | EnterDelete(o: nat) | UnbindProc(o: nat) | LeaveDelete(o: nat)

  /** The daemon has given this index to the queue and not freed it. */
  predicate Holds(x: Queue, q: nat) {
    x.index == q && (x.pc.Created? || x.pc.BindingTo? || x.pc.Live?)
  }

  predicate IsTaken(s: State, q: nat) {
    exists o :: 0 <= o < |s.queues| && Holds(s.queues[o], q)
  }

  predicate Can(s: State, a: Step) {
    match a
    case Register(p) => p < |s.procs| && s.procs[p].Detached?
    case EnterAttach(p) => p < |s.procs| && s.procs[p].Registered? && s.gate.Free?
    case BindQueue(p) => p < |s.procs| && s.procs[p].BindingQueues? && s.procs[p].r < |s.published|
    case LeaveAttach(p) => p < |s.procs| && s.procs[p].BindingQueues? && s.procs[p].r >= |s.published|
    case EnterDetach(p) => p < |s.procs| && s.procs[p].Attached? && s.gate.Free?
    case UnbindQueue(p) => p < |s.procs| && s.procs[p].UnbindingQueues? && s.procs[p].r < |s.published|
    case LeaveDetach(p) => p < |s.procs| && s.procs[p].UnbindingQueues? && s.procs[p].r >= |s.published|
    case Unregister(p) => p < |s.procs| && s.procs[p].Draining?
    case Create(o, index) => o < |s.queues| && s.queues[o].pc.Unborn? && !IsTaken(s, index)
    case EnterCreate(o) => o < |s.queues| && s.queues[o].pc.Created? && s.gate.Free?
    case BindProc(o, p) => o < |s.queues| && s.queues[o].pc == BindingTo(p) && p < |s.procs|
    case LeaveCreate(o) => o < |s.queues| && s.queues[o].pc.BindingTo? && s.queues[o].pc.r >= |s.procs|
    case FreeIndex(o) => o < |s.queues| && s.queues[o].pc.Live?
    case EnterDelete(o) => o < |s.queues| && s.queues[o].pc.Freed? && s.gate.Free?
    case UnbindProc(o) => o < |s.queues| && s.queues[o].pc.UnbindingFrom? && s.queues[o].pc.r < |s.procs|
    case LeaveDelete(o) => o < |s.queues| && s.queues[o].pc.UnbindingFrom? && s.queues[o].pc.r >= |s.procs|
  }

  function SetProc(s: State, p: nat, a: Attach): State
    requires p < |s.procs|
  {
    s.(procs := s.procs[p := a])
  }

  function SetPc(s: State, o: nat, pc: Pc): State
    requires o < |s.queues|
  {
    s.(queues := s.queues[o := s.queues[o].(pc := pc)])
  }

  /** The scan of MessageQ_bind over the queues array. */
  function ApplyBindQueue(s: State, p: nat): State
    requires Can(s, BindQueue(p))
  {
    var r := s.procs[p].r;
    var t := if At(s.published, r).Some? then Bind(s, p, r) else s;
    SetProc(t, p, BindingQueues(r + 1))
  }

  /** The scan of MessageQ_unbind over the queues array. */
  function ApplyUnbindQueue(s: State, p: nat): State
    requires Can(s, UnbindQueue(p))
  {
    var r := s.procs[p].r;
    var t := if At(s.published, r).Some? then Unbind(s, p, r) else s;
    SetProc(t, p, UnbindingQueues(r + 1))
  }

  /** The pairs of a processor in a table. */
  function PairsOf(table: set<(nat, nat)>, p: nat): set<(nat, nat)> {
    set x | x in table && x.0 == p
  }

  /** MessageQ_unregisterTransport and TransportRpmsg_delete: the index table is freed, whatever it holds,
    * and no socket is closed. */
  function ApplyUnregister(s: State, p: nat): State
    requires Can(s, Unregister(p))
  {
    var pairs := PairsOf(s.table, p);
    SetProc(s.(table := s.table - pairs, late := s.late - pairs, lost := s.lost + multiset(pairs)), p, Detached)
  }

  /** The scan of MessageQ_create over the registered transports. */
  function ApplyBindProc(s: State, o: nat, p: nat): State
    requires Can(s, BindProc(o, p))
  {
    var t := if IsRegistered(s, p) then Bind(s, p, s.queues[o].index) else s;
    var u := if s.procs[p].Draining? then t.(late := t.late + {(p, s.queues[o].index)}) else t;
    SetPc(u, o, BindingTo(p + 1))
  }

  /** The scan of MessageQ_delete over the registered transports. */
  function ApplyUnbindProc(s: State, o: nat): State
    requires Can(s, UnbindProc(o))
  {
    var r := s.queues[o].pc.r;
    var t := if IsRegistered(s, r) then Unbind(s, r, s.queues[o].index) else s;
    SetPc(t.(late := t.late - {(r, s.queues[o].index)}), o, UnbindingFrom(r + 1))
  }

  /** The live queues of that index. */
  function LiveAt(s: State, q: nat): set<nat> {
    set o | 0 <= o < |s.queues| && s.queues[o].pc.Live? && s.queues[o].index == q
  }

  /** What a create or delete writes at its index when it leaves the gate, whoever is there. */
  function Publish(s: State, q: nat, entry: Option<nat>): State {
    s.(gate := Free, published := Grown(s.published, q, None)[q := entry])
  }

  function Apply(s: State, a: Step): State
    requires Can(s, a)
  {
    match a
    case Register(p) => SetProc(s, p, Registered)
    case EnterAttach(p) => SetProc(s.(gate := ByProc(p)), p, BindingQueues(0))
    case BindQueue(p) => ApplyBindQueue(s, p)
    case LeaveAttach(p) => SetProc(s.(gate := Free), p, Attached)
    case EnterDetach(p) => SetProc(s.(gate := ByProc(p)), p, UnbindingQueues(0))
    case UnbindQueue(p) => ApplyUnbindQueue(s, p)
    case LeaveDetach(p) => SetProc(s.(gate := Free), p, Draining)
    case Unregister(p) => ApplyUnregister(s, p)
    case Create(o, index) => s.(queues := s.queues[o := Queue(index, Created)])
    case EnterCreate(o) => SetPc(s.(gate := ByQueue(o)), o, BindingTo(0))
    case BindProc(o, p) => ApplyBindProc(s, o, p)
    case LeaveCreate(o) => SetPc(Publish(s, s.queues[o].index, Some(o)), o, Live)
    case FreeIndex(o) => SetPc(s, o, Freed)
    case EnterDelete(o) =>
      SetPc(s.(gate := ByQueue(o), overrun := s.overrun + LiveAt(s, s.queues[o].index)), o, UnbindingFrom(0))
    case UnbindProc(o) => ApplyUnbindProc(s, o)
    case LeaveDelete(o) => SetPc(Publish(s, s.queues[o].index, None), o, Gone)
  }

  predicate Initial(s: State) {
    && (forall p :: 0 <= p < |s.procs| ==> s.procs[p].Detached?)
    && (forall o :: 0 <= o < |s.queues| ==> s.queues[o].pc.Unborn?)
    && (forall q :: 0 <= q < |s.published| ==> s.published[q] == None)
    && s.gate.Free? && s.table == {} && s.sockets == multiset{}
    && s.overrun == {} && s.late == {} && s.lost == multiset{}
  }

  // ---------------------------------------------------------------- invariant

  /** A scan runs exactly while its thread owns the gate. */
  ghost predicate GateInv(s: State) {
    && (forall p: nat :: p < |s.procs| ==>
         (s.procs[p].BindingQueues? || s.procs[p].UnbindingQueues? <==> s.gate == ByProc(p)))
    && (forall o: nat :: o < |s.queues| ==>
         (s.queues[o].pc.BindingTo? || s.queues[o].pc.UnbindingFrom? <==> s.gate == ByQueue(o)))
    && (s.gate.ByProc? ==> s.gate.p < |s.procs|) && (s.gate.ByQueue? ==> s.gate.o < |s.queues|)
  }

  /** The daemon gives an index to one queue at a time. */
  ghost predicate DaemonInv(s: State) {
    forall o: nat, o': nat, q: nat ::
      o < |s.queues| && o' < |s.queues| && Holds(s.queues[o], q) && Holds(s.queues[o'], q) ==> o == o'
  }

  /** The scan under way at index q, Gone for none. */
  function ScanAt(s: State, q: nat): Pc {
    if s.gate.ByQueue? && s.gate.o < |s.queues| && s.queues[s.gate.o].index == q then s.queues[s.gate.o].pc else Gone
  }

  /** The array holds a queue that was published at that index and whose delete is not through. */
  predicate EntryOk(s: State, q: nat, o: nat) {
    && o < |s.queues| && s.queues[o].index == q
    && (s.queues[o].pc.Live? || s.queues[o].pc.Freed? || s.queues[o].pc.UnbindingFrom?)
  }

  ghost predicate ArrayInv(s: State) {
    forall q: nat :: At(s.published, q).Some? ==> EntryOk(s, q, At(s.published, q).value)
  }

  /** A live queue is in the array until it is overrun, and is not from the end of that delete on. */
  predicate LiveOk(s: State, o: nat)
    requires o < |s.queues|
  {
    var q := s.queues[o].index;
    s.queues[o].pc.Live? ==>
      if o !in s.overrun then At(s.published, q) == Some(o) && !ScanAt(s, q).UnbindingFrom?
      else At(s.published, q) == None || ScanAt(s, q).UnbindingFrom?
  }

  /** Only queues that have been published can be overrun. */
  predicate OverrunOk(s: State, o: nat) {
    && o < |s.queues| && !s.queues[o].pc.Unborn? && !s.queues[o].pc.Created? && !s.queues[o].pc.BindingTo?
  }

  ghost predicate LiveInv(s: State) {
    && (forall o: nat :: o < |s.queues| ==> LiveOk(s, o))
    && (forall o: nat :: o in s.overrun ==> OverrunOk(s, o))
  }

  /** Whether index q is bound at processor p as far as the queues' scans go: what the array says, but
    * for the processors that a scan of that index has passed. */
  predicate BoundSide(s: State, p: nat, q: nat) {
    match ScanAt(s, q)
    case BindingTo(r) => At(s.published, q).Some? || p < r
    case UnbindingFrom(r) => At(s.published, q).Some? && p >= r
    case _ => At(s.published, q).Some?
  }

  /** The attach's own scan has passed index q, and the detach's has not. */
  predicate Passed(s: State, p: nat, q: nat) {
    && p < |s.procs|
    && match s.procs[p]
       case Attached => true
       case BindingQueues(r) => q < r
       case UnbindingQueues(r) => q >= r
       case _ => false
  }

  /** The detach's scan has passed index q, and no create has bound it since. */
  predicate Swept(s: State, p: nat, q: nat) {
    && p < |s.procs|
    && match s.procs[p]
       case UnbindingQueues(r) => q < r
       case Draining => (p, q) !in s.late
       case _ => false
  }

  /** The pair is in the tables only if both sides may have put it there, and is if both have; it is late
    * only while the processor drains. */
  predicate PairOk(s: State, p: nat, q: nat) {
    && ((p, q) in s.table ==> IsRegistered(s, p) && BoundSide(s, p, q) && !Swept(s, p, q))
    && (Passed(s, p, q) && BoundSide(s, p, q) ==> (p, q) in s.table)
    && ((p, q) in s.late ==> (p, q) in s.table && s.procs[p].Draining?)
  }

  ghost predicate TableInv(s: State) {
    forall p: nat, q: nat :: PairOk(s, p, q)
  }

  /** Each pair in the tables has one socket, and there are no others but the lost ones. */
  ghost predicate SocketInv(s: State) {
    s.sockets == multiset(s.table) + s.lost
  }

  ghost predicate Inv(s: State) {
    GateInv(s) && DaemonInv(s) && ArrayInv(s) && LiveInv(s) && TableInv(s) && SocketInv(s)
  }

  lemma InitialInv(s: State)
    requires Initial(s)
    ensures Inv(s)
  {
  }

  // ---------------------------------------------------------------- steps of the scans

  lemma BindKeepsSockets(s: State, p: nat, q: nat)
    requires SocketInv(s)
    ensures SocketInv(Bind(s, p, q)) && SocketInv(Unbind(s, p, q))
  {
    assert multiset(s.table + {(p, q)}) == multiset(s.table - {(p, q)}) + multiset{(p, q)};
    assert (p, q) in s.table ==> s.table + {(p, q)} == s.table;
    assert (p, q) !in s.table ==> s.table - {(p, q)} == s.table;
  }

  /** A step of a scan binds or unbinds at most one pair. */
  lemma ScanKeepsSockets(s: State, s': State, p: nat, q: nat)
    requires SocketInv(s) && s'.lost == s.lost
    requires (s'.table, s'.sockets) == (Bind(s, p, q).table, Bind(s, p, q).sockets) ||
             (s'.table, s'.sockets) == (Unbind(s, p, q).table, Unbind(s, p, q).sockets) ||
             (s'.table, s'.sockets) == (s.table, s.sockets)
    ensures SocketInv(s')
  {
    BindKeepsSockets(s, p, q);
  }

  lemma BindQueuePair(s: State, p: nat, x: nat, y: nat)
    requires Can(s, BindQueue(p)) && s.gate == ByProc(p) && PairOk(s, x, y)
    ensures PairOk(ApplyBindQueue(s, p), x, y)
  {
  }

  lemma BindQueueKeeps(s: State, p: nat)
    requires Inv(s) && Can(s, BindQueue(p))
    ensures Inv(ApplyBindQueue(s, p))
  {
    var s' := ApplyBindQueue(s, p);
    ScanKeepsSockets(s, s', p, s.procs[p].r);
    forall x: nat, y: nat ensures PairOk(s', x, y) {
      assert PairOk(s, x, y);
      BindQueuePair(s, p, x, y);
    }
    QueuesUntouched(s, s');
  }

  lemma UnbindQueuePair(s: State, p: nat, x: nat, y: nat)
    requires Can(s, UnbindQueue(p)) && s.gate == ByProc(p) && PairOk(s, x, y)
    ensures PairOk(ApplyUnbindQueue(s, p), x, y)
  {
  }

  lemma UnbindQueueKeeps(s: State, p: nat)
    requires Inv(s) && Can(s, UnbindQueue(p))
    ensures Inv(ApplyUnbindQueue(s, p))
  {
    var s' := ApplyUnbindQueue(s, p);
    ScanKeepsSockets(s, s', p, s.procs[p].r);
    forall x: nat, y: nat ensures PairOk(s', x, y) {
      assert PairOk(s, x, y);
      UnbindQueuePair(s, p, x, y);
    }
    QueuesUntouched(s, s');
  }

  /** A step of an attach or detach changes nothing about the queues. */
  lemma QueuesUntouched(s: State, s': State)
    requires DaemonInv(s) && ArrayInv(s) && LiveInv(s)
    requires s'.queues == s.queues && s'.published == s.published && s'.overrun == s.overrun
    requires !s.gate.ByQueue? && !s'.gate.ByQueue?
    ensures DaemonInv(s') && ArrayInv(s') && LiveInv(s')
  {
    forall q: nat | At(s'.published, q).Some? ensures EntryOk(s', q, At(s'.published, q).value) {
      assert EntryOk(s, q, At(s.published, q).value);
    }
    forall o: nat | o < |s'.queues| ensures LiveOk(s', o) {
      assert LiveOk(s, o);
    }
    forall o: nat | o in s'.overrun ensures OverrunOk(s', o) {
      assert OverrunOk(s, o);
    }
  }

  lemma BindProcPair(s: State, o: nat, p: nat, x: nat, y: nat)
    requires Can(s, BindProc(o, p)) && s.gate == ByQueue(o) && !s.procs[p].UnbindingQueues? && PairOk(s, x, y)
    ensures PairOk(ApplyBindProc(s, o, p), x, y)
  {
  }

  lemma UnbindProcPair(s: State, o: nat, x: nat, y: nat)
    requires Can(s, UnbindProc(o)) && s.gate == ByQueue(o) && PairOk(s, x, y)
    ensures PairOk(ApplyUnbindProc(s, o), x, y)
  {
  }

  /** A queue's scan going on changes nothing but how far it has got. */
  lemma ScanGoesOn(s: State, s': State, o: nat)
    requires GateInv(s) && DaemonInv(s) && ArrayInv(s) && LiveInv(s) && s.gate == ByQueue(o) && o < |s.queues|
    requires s'.procs == s.procs && s'.published == s.published && s'.gate == s.gate && s'.overrun == s.overrun
    requires |s'.queues| == |s.queues| && s'.queues == s.queues[o := s'.queues[o]]
    requires s'.queues[o].index == s.queues[o].index
    requires s.queues[o].pc.BindingTo? == s'.queues[o].pc.BindingTo?
    requires s.queues[o].pc.UnbindingFrom? == s'.queues[o].pc.UnbindingFrom?
    ensures GateInv(s') && DaemonInv(s') && ArrayInv(s') && LiveInv(s')
  {
    ScanKeepsDaemon(s, s', o);
    forall q: nat | At(s'.published, q).Some? ensures EntryOk(s', q, At(s'.published, q).value) {
      assert EntryOk(s, q, At(s.published, q).value);
    }
    forall x: nat | x < |s'.queues| ensures LiveOk(s', x) {
      assert LiveOk(s, x);
    }
    forall x: nat | x in s'.overrun ensures OverrunOk(s', x) {
      assert OverrunOk(s, x);
    }
  }

  lemma ScanKeepsDaemon(s: State, s': State, o: nat)
    requires DaemonInv(s) && o < |s.queues| == |s'.queues| && s'.queues == s.queues[o := s'.queues[o]]
    requires forall q: nat :: Holds(s'.queues[o], q) ==> Holds(s.queues[o], q)
    ensures DaemonInv(s')
  {
    forall x: nat, x': nat, q: nat | x < |s'.queues| && x' < |s'.queues| &&
      Holds(s'.queues[x], q) && Holds(s'.queues[x'], q) ensures x == x'
    {
      assert Holds(s.queues[x], q) && Holds(s.queues[x'], q);
    }
  }

  lemma BindProcKeeps(s: State, o: nat, p: nat)
    requires Inv(s) && Can(s, BindProc(o, p))
    ensures Inv(ApplyBindProc(s, o, p))
  {
    var s' := ApplyBindProc(s, o, p);
    ScanKeepsSockets(s, s', p, s.queues[o].index);
    ScanGoesOn(s, s', o);
    BindProcPairs(s, o, p);
  }

  lemma BindProcPairs(s: State, o: nat, p: nat)
    requires GateInv(s) && TableInv(s) && Can(s, BindProc(o, p))
    ensures TableInv(ApplyBindProc(s, o, p))
  {
    forall x: nat, y: nat ensures PairOk(ApplyBindProc(s, o, p), x, y) {
      assert PairOk(s, x, y);
      BindProcPair(s, o, p, x, y);
    }
  }

  lemma UnbindProcKeeps(s: State, o: nat)
    requires Inv(s) && Can(s, UnbindProc(o))
    ensures Inv(ApplyUnbindProc(s, o))
  {
    var s' := ApplyUnbindProc(s, o);
    ScanKeepsSockets(s, s', s.queues[o].pc.r, s.queues[o].index);
    ScanGoesOn(s, s', o);
    forall x: nat, y: nat ensures PairOk(s', x, y) {
      assert PairOk(s, x, y);
      UnbindProcPair(s, o, x, y);
    }
  }

  lemma RegisterKeeps(s: State, p: nat)
    requires Inv(s) && Can(s, Register(p))
    ensures Inv(Apply(s, Register(p)))
  {
    var s' := Apply(s, Register(p));
    forall x: nat, y: nat ensures PairOk(s', x, y) {
      assert PairOk(s, x, y) && BoundSide(s', x, y) == BoundSide(s, x, y);
    }
    ProcsOnly(s, s');
  }

  lemma UnregisterPair(s: State, p: nat, x: nat, y: nat)
    requires Can(s, Unregister(p)) && PairOk(s, x, y)
    ensures PairOk(ApplyUnregister(s, p), x, y)
  {
    assert BoundSide(ApplyUnregister(s, p), x, y) == BoundSide(s, x, y);
  }

  lemma UnregisterKeeps(s: State, p: nat)
    requires Inv(s) && Can(s, Unregister(p))
    ensures Inv(ApplyUnregister(s, p))
  {
    var s' := ApplyUnregister(s, p);
    forall x: nat, y: nat ensures PairOk(s', x, y) {
      assert PairOk(s, x, y);
      UnregisterPair(s, p, x, y);
    }
    var pairs := PairsOf(s.table, p);
    assert multiset(s.table) == multiset(s.table - pairs) + multiset(pairs);
    ProcsOnly(s, s');
  }

  /** A step that changes what a processor is about, outside the gate. */
  lemma ProcsOnly(s: State, s': State)
    requires DaemonInv(s) && ArrayInv(s) && LiveInv(s)
    requires s'.queues == s.queues && s'.published == s.published && s'.overrun == s.overrun && s'.gate == s.gate
    ensures DaemonInv(s') && ArrayInv(s') && LiveInv(s')
  {
    forall o: nat | o < |s'.queues| ensures LiveOk(s', o) {
      assert LiveOk(s, o);
    }
    forall q: nat | At(s'.published, q).Some? ensures EntryOk(s', q, At(s'.published, q).value) {
      assert EntryOk(s, q, At(s.published, q).value);
    }
    forall o: nat | o in s'.overrun ensures OverrunOk(s', o) {
      assert OverrunOk(s, o);
    }
  }

  lemma AttachKeeps(s: State, a: Step)
    requires Inv(s) && Can(s, a) && (a.EnterAttach? || a.LeaveAttach? || a.EnterDetach? || a.LeaveDetach?)
    ensures Inv(Apply(s, a))
  {
    var s' := Apply(s, a);
    QueuesUntouched(s, s');
    forall x: nat, y: nat ensures PairOk(s', x, y) {
      assert PairOk(s, x, y);
    }
  }

  // ---------------------------------------------------------------- steps of a queue's life

  /** A step outside the gate: given an index, or the index freed. */
  lemma DaemonStepKeeps(s: State, a: Step)
    requires Inv(s) && Can(s, a) && (a.Create? || a.FreeIndex?)
    ensures Inv(Apply(s, a))
  {
    var s' := Apply(s, a);
    assert s.gate != ByQueue(a.o);
    if a.Create? {
      CreateKeepsDaemon(s, a.o, a.index);
    } else {
      ScanKeepsDaemon(s, s', a.o);
    }
    forall q: nat ensures ScanAt(s', q) == ScanAt(s, q) {
    }
    forall x: nat, y: nat ensures PairOk(s', x, y) {
      assert PairOk(s, x, y) && BoundSide(s', x, y) == BoundSide(s, x, y);
    }
    forall q: nat | At(s'.published, q).Some? ensures EntryOk(s', q, At(s'.published, q).value) {
      assert EntryOk(s, q, At(s.published, q).value);
    }
    forall x: nat | x < |s'.queues| ensures LiveOk(s', x) {
      assert LiveOk(s, x);
    }
    forall x: nat | x in s'.overrun ensures OverrunOk(s', x) {
      assert OverrunOk(s, x);
    }
  }

  lemma CreateKeepsDaemon(s: State, o: nat, index: nat)
    requires DaemonInv(s) && Can(s, Create(o, index))
    ensures DaemonInv(Apply(s, Create(o, index)))
  {
    var s' := Apply(s, Create(o, index));
    forall x: nat, x': nat, q: nat | x < |s'.queues| && x' < |s'.queues| &&
      Holds(s'.queues[x], q) && Holds(s'.queues[x'], q) ensures x == x'
    {
      assert x != o ==> Holds(s.queues[x], q);
      assert x' != o ==> Holds(s.queues[x'], q);
    }
  }

  /** Taking the gate for a scan: nothing is bound or unbound yet. */
  lemma EnterPairs(s: State, a: Step)
    requires GateInv(s) && TableInv(s) && Can(s, a) && (a.EnterCreate? || a.EnterDelete?)
    ensures TableInv(Apply(s, a))
  {
    var s' := Apply(s, a);
    forall x: nat, y: nat ensures PairOk(s', x, y) {
      assert PairOk(s, x, y) && BoundSide(s', x, y) == BoundSide(s, x, y);
    }
  }

  lemma EnterCreateKeeps(s: State, o: nat)
    requires Inv(s) && Can(s, EnterCreate(o))
    ensures Inv(Apply(s, EnterCreate(o)))
  {
    var s' := Apply(s, EnterCreate(o));
    EnterPairs(s, EnterCreate(o));
    ScanKeepsDaemon(s, s', o);
    forall q: nat | At(s'.published, q).Some? ensures EntryOk(s', q, At(s'.published, q).value) {
      assert EntryOk(s, q, At(s.published, q).value);
    }
    forall x: nat | x < |s'.queues| ensures LiveOk(s', x) {
      assert LiveOk(s, x);
    }
    forall x: nat | x in s'.overrun ensures OverrunOk(s', x) {
      assert OverrunOk(s, x);
    }
  }

  /** Entering the gate for a delete overruns whatever live queue has the index by now. */
  lemma EnterDeleteKeeps(s: State, o: nat)
    requires Inv(s) && Can(s, EnterDelete(o))
    ensures Inv(Apply(s, EnterDelete(o)))
  {
    var s' := Apply(s, EnterDelete(o));
    EnterPairs(s, EnterDelete(o));
    ScanKeepsDaemon(s, s', o);
    forall q: nat | At(s'.published, q).Some? ensures EntryOk(s', q, At(s'.published, q).value) {
      assert EntryOk(s, q, At(s.published, q).value);
    }
    forall x: nat | x < |s'.queues| ensures LiveOk(s', x) {
      assert LiveOk(s, x);
      assert x in s'.overrun <==> x in s.overrun || x in LiveAt(s, s.queues[o].index);
    }
    forall x: nat | x in s'.overrun ensures OverrunOk(s', x) {
      assert x in s.overrun ==> OverrunOk(s, x);
    }
  }

  lemma PublishAt(published: seq<Option<nat>>, q: nat, entry: Option<nat>, y: nat)
    ensures At(Grown(published, q, None)[q := entry], y) == if y == q then entry else At(published, y)
  {
  }

  lemma LeavePairs(s: State, a: Step)
    requires GateInv(s) && TableInv(s) && Can(s, a) && (a.LeaveCreate? || a.LeaveDelete?)
    ensures TableInv(Apply(s, a))
  {
    var s' := Apply(s, a);
    var q := s.queues[a.o].index;
    assert s.gate == ByQueue(a.o);
    forall x: nat, y: nat ensures PairOk(s', x, y) {
      assert PairOk(s, x, y);
      PublishAt(s.published, q, if a.LeaveCreate? then Some(a.o) else None, y);
    }
  }

  /** THEOREM. A create enters its queue at its index and a delete clears the entry there, whoever's it is;
    * every other entry stays, and an array that is too short grows to hold 32 entries from that index on. */
  lemma EntryWritten(s: State, a: Step, y: nat)
    requires Can(s, a) && (a.LeaveCreate? || a.LeaveDelete?)
    ensures var (q, u) := (s.queues[a.o].index, Apply(s, a));
      && |u.published| == (if q < |s.published| then |s.published| else q + 32)
      && At(u.published, y) ==
         if y != q then At(s.published, y) else if a.LeaveCreate? then Some(a.o) else None
  {
    PublishAt(s.published, s.queues[a.o].index, if a.LeaveCreate? then Some(a.o) else None, y);
  }

  lemma LeaveCreateKeeps(s: State, o: nat)
    requires Inv(s) && Can(s, LeaveCreate(o))
    ensures Inv(Apply(s, LeaveCreate(o)))
  {
    var s' := Apply(s, LeaveCreate(o));
    var q := s.queues[o].index;
    assert s.gate == ByQueue(o);
    LeavePairs(s, LeaveCreate(o));
    ScanKeepsDaemon(s, s', o);
    forall y: nat | At(s'.published, y).Some? ensures EntryOk(s', y, At(s'.published, y).value) {
      PublishAt(s.published, q, Some(o), y);
      assert At(s.published, y).Some? ==> EntryOk(s, y, At(s.published, y).value);
    }
    forall x: nat | x < |s'.queues| ensures LiveOk(s', x) {
      assert LiveOk(s, x);
      PublishAt(s.published, q, Some(o), s'.queues[x].index);
      assert o in s.overrun ==> OverrunOk(s, o);
      assert Holds(s.queues[o], q) && (s.queues[x].pc.Live? && s.queues[x].index == q ==> Holds(s.queues[x], q));
    }
    forall x: nat | x in s'.overrun ensures OverrunOk(s', x) {
      assert OverrunOk(s, x);
    }
  }

  lemma LeaveDeleteKeeps(s: State, o: nat)
    requires Inv(s) && Can(s, LeaveDelete(o))
    ensures Inv(Apply(s, LeaveDelete(o)))
  {
    var s' := Apply(s, LeaveDelete(o));
    var q := s.queues[o].index;
    assert s.gate == ByQueue(o);
    LeavePairs(s, LeaveDelete(o));
    ScanKeepsDaemon(s, s', o);
    forall y: nat | At(s'.published, y).Some? ensures EntryOk(s', y, At(s'.published, y).value) {
      PublishAt(s.published, q, None, y);
      assert EntryOk(s, y, At(s.published, y).value);
    }
    forall x: nat | x < |s'.queues| ensures LiveOk(s', x) {
      assert LiveOk(s, x);
      PublishAt(s.published, q, None, s'.queues[x].index);
    }
    forall x: nat | x in s'.overrun ensures OverrunOk(s', x) {
      assert OverrunOk(s, x);
    }
  }

  lemma StepKeepsInv(s: State, a: Step)
    requires Inv(s) && Can(s, a)
    ensures Inv(Apply(s, a))
  {
    match a
    case Register(p) => RegisterKeeps(s, p);
    case EnterAttach(_) => AttachKeeps(s, a);
    case LeaveAttach(_) => AttachKeeps(s, a);
    case BindQueue(p) => BindQueueKeeps(s, p);
    case EnterDetach(_) => AttachKeeps(s, a);
    case LeaveDetach(_) => AttachKeeps(s, a);
    case UnbindQueue(p) => UnbindQueueKeeps(s, p);
    case Unregister(p) => UnregisterKeeps(s, p);
    case Create(_, _) => DaemonStepKeeps(s, a);
    case FreeIndex(_) => DaemonStepKeeps(s, a);
    case EnterCreate(o) => EnterCreateKeeps(s, o);
    case BindProc(o, p) => BindProcKeeps(s, o, p);
    case LeaveCreate(o) => LeaveCreateKeeps(s, o);
    case EnterDelete(o) => EnterDeleteKeeps(s, o);
    case UnbindProc(o) => UnbindProcKeeps(s, o);
    case LeaveDelete(o) => LeaveDeleteKeeps(s, o);
  }

  // ---------------------------------------------------------------- runs

  ghost predicate Reaches(s: State, steps: seq<Step>, s': State)
    decreases |steps|
  {
    if steps == [] then s' == s
    else
      var last := |steps| - 1;
      exists u :: Reaches(s, steps[..last], u) && Can(u, steps[last]) && s' == Apply(u, steps[last])
  }

  lemma {:induction false} EveryRunKeepsInv(s: State, steps: seq<Step>, s': State)
    requires Initial(s) && Reaches(s, steps, s')
    ensures Inv(s')
    decreases |steps|
  {
    if steps == [] {
      InitialInv(s);
    } else {
      var last := |steps| - 1;
      var u :| Reaches(s, steps[..last], u) && Can(u, steps[last]) && s' == Apply(u, steps[last]);
      EveryRunKeepsInv(s, steps[..last], u);
      StepKeepsInv(u, steps[last]);
    }
  }

  /** Step j is the delete of a queue of index q entering the gate. */
  predicate DeleteAt(steps: seq<Step>, queues: seq<Queue>, q: nat, j: nat) {
    j < |steps| && steps[j].EnterDelete? && steps[j].o < |queues| && queues[steps[j].o].index == q
  }

  /** Some delete of a queue with the index of queue o enters the gate after o has been published. */
  ghost predicate Overrun(steps: seq<Step>, queues: seq<Queue>, o: nat)
    requires o < |queues|
  {
    exists i: nat, j: nat ::
      i < j && i < |steps| && steps[i] == LeaveCreate(o) && DeleteAt(steps, queues, queues[o].index, j)
  }

  predicate WasPublished(pc: Pc) {
    pc.Live? || pc.Freed? || pc.UnbindingFrom? || pc.Gone?
  }

  /** What a run tells about its last state: which queues were published, which deletes have entered,
    * and which live queues were overrun. */
  ghost predicate HistoryOk(steps: seq<Step>, s: State) {
    && (forall o: nat :: o < |s.queues| ==> (LeaveCreate(o) in steps <==> WasPublished(s.queues[o].pc)))
    && (forall o: nat :: o < |s.queues| && EnterDelete(o) in steps ==>
         s.queues[o].pc.UnbindingFrom? || s.queues[o].pc.Gone?)
    && (forall o: nat :: o < |s.queues| && s.queues[o].pc.Live? ==>
         (o in s.overrun <==> Overrun(steps, s.queues, o)))
  }

  /** One more step overruns a queue that had been published if it is a delete of its index. */
  lemma OverrunGrows(steps: seq<Step>, a: Step, queues: seq<Queue>, o: nat)
    requires o < |queues|
    ensures Overrun(steps + [a], queues, o) <==>
      Overrun(steps, queues, o) || (LeaveCreate(o) in steps && DeleteAt([a], queues, queues[o].index, 0))
  {
    var more := steps + [a];
    if i: nat, j: nat :| i < j && i < |more| && more[i] == LeaveCreate(o) && DeleteAt(more, queues, queues[o].index, j) {
      if j < |steps| {
        assert steps[i] == LeaveCreate(o) && DeleteAt(steps, queues, queues[o].index, j);
      }
    }
    if i: nat, j: nat :| i < j && i < |steps| && steps[i] == LeaveCreate(o) && DeleteAt(steps, queues, queues[o].index, j) {
      assert more[i] == LeaveCreate(o) && DeleteAt(more, queues, queues[o].index, j);
    }
    if LeaveCreate(o) in steps && DeleteAt([a], queues, queues[o].index, 0) {
      var i: nat :| i < |steps| && steps[i] == LeaveCreate(o);
      assert more[i] == LeaveCreate(o) && DeleteAt(more, queues, queues[o].index, |steps|);
    }
  }

  /** A delete that has entered names the same index before and after a step. */
  lemma OverrunStays(steps: seq<Step>, queues: seq<Queue>, queues': seq<Queue>, o: nat)
    requires o < |queues| == |queues'| && queues'[o].index == queues[o].index
    requires forall d: nat :: d < |queues| && EnterDelete(d) in steps ==> queues'[d].index == queues[d].index
    ensures Overrun(steps, queues, o) <==> Overrun(steps, queues', o)
  {
    forall j: nat ensures DeleteAt(steps, queues, queues[o].index, j) <==> DeleteAt(steps, queues', queues[o].index, j) {
      assert j < |steps| ==> steps[j] in steps;
    }
  }

  /** Where a queue's life goes in a step. */
  ghost predicate QueueMoves(x: Queue, x': Queue, o: nat, a: Step) {
    && (WasPublished(x'.pc) <==> WasPublished(x.pc) || a == LeaveCreate(o))
    && (a == EnterDelete(o) || x.pc.UnbindingFrom? || x.pc.Gone? ==> x'.pc.UnbindingFrom? || x'.pc.Gone?)
    && (a == EnterDelete(o) || WasPublished(x.pc) ==> x'.index == x.index)
    && (x'.pc.Live? && !x.pc.Live? ==> a == LeaveCreate(o) && !WasPublished(x.pc))
  }

  predicate OfProcessor(a: Step) {
    a.Register? || a.EnterAttach? || a.BindQueue? || a.LeaveAttach? ||
    a.EnterDetach? || a.UnbindQueue? || a.LeaveDetach? || a.Unregister?
  }

  lemma ProcessorStep(s: State, a: Step)
    requires Can(s, a) && OfProcessor(a)
    ensures Apply(s, a).queues == s.queues
  {
  }

  lemma CreateStep(s: State, a: Step)
    requires Can(s, a) && (a.Create? || a.EnterCreate? || a.BindProc? || a.LeaveCreate?)
    ensures |Apply(s, a).queues| == |s.queues|
    ensures Apply(s, a).queues == s.queues[a.o := Apply(s, a).queues[a.o]]
    ensures QueueMoves(s.queues[a.o], Apply(s, a).queues[a.o], a.o, a)
  {
  }

  lemma DeleteStep(s: State, a: Step)
    requires Can(s, a) && (a.FreeIndex? || a.EnterDelete? || a.UnbindProc? || a.LeaveDelete?)
    ensures |Apply(s, a).queues| == |s.queues|
    ensures Apply(s, a).queues == s.queues[a.o := Apply(s, a).queues[a.o]]
    ensures QueueMoves(s.queues[a.o], Apply(s, a).queues[a.o], a.o, a)
  {
  }

  lemma QueueStep(s: State, a: Step, o: nat)
    requires Can(s, a) && o < |s.queues|
    ensures |Apply(s, a).queues| == |s.queues| && QueueMoves(s.queues[o], Apply(s, a).queues[o], o, a)
  {
    if OfProcessor(a) {
      ProcessorStep(s, a);
    } else if a.Create? || a.EnterCreate? || a.BindProc? || a.LeaveCreate? {
      CreateStep(s, a);
    } else {
      DeleteStep(s, a);
    }
  }

  lemma OverrunEffect(s: State, a: Step, o: nat)
    requires Can(s, a) && o < |s.queues|
    ensures o in Apply(s, a).overrun <==>
      o in s.overrun || (a.EnterDelete? && s.queues[o].pc.Live? && s.queues[o].index == s.queues[a.o].index)
  {
  }

  /** What a step is to the history, told by what it does to the queues. */
  lemma HistoryOne(steps: seq<Step>, s: State, a: Step, s': State, o: nat)
    requires HistoryOk(steps, s) && o < |s.queues| == |s'.queues|
    requires QueueMoves(s.queues[o], s'.queues[o], o, a)
    ensures LeaveCreate(o) in steps + [a] <==> WasPublished(s'.queues[o].pc)
    ensures EnterDelete(o) in steps + [a] ==> s'.queues[o].pc.UnbindingFrom? || s'.queues[o].pc.Gone?
  {
    assert LeaveCreate(o) in steps + [a] <==> LeaveCreate(o) in steps || a == LeaveCreate(o);
    assert EnterDelete(o) in steps + [a] <==> EnterDelete(o) in steps || a == EnterDelete(o);
  }

  lemma OverrunOne(steps: seq<Step>, s: State, a: Step, s': State, o: nat)
    requires HistoryOk(steps, s) && LiveInv(s) && o < |s.queues| == |s'.queues| && s'.queues[o].pc.Live?
    requires forall x: nat :: x < |s.queues| ==> QueueMoves(s.queues[x], s'.queues[x], x, a)
    requires a.EnterDelete? ==> a.o < |s.queues|
    requires o in s'.overrun <==>
      o in s.overrun || (a.EnterDelete? && s.queues[o].pc.Live? && s.queues[o].index == s.queues[a.o].index)
    ensures o in s'.overrun <==> Overrun(steps + [a], s'.queues, o)
  {
    OverrunGrows(steps, a, s'.queues, o);
    assert QueueMoves(s.queues[o], s'.queues[o], o, a);
    assert a.EnterDelete? ==> QueueMoves(s.queues[a.o], s'.queues[a.o], a.o, a);
    if s.queues[o].pc.Live? {
      OverrunStays(steps, s.queues, s'.queues, o);
    } else {
      assert o in s.overrun ==> OverrunOk(s, o);
    }
  }

  lemma HistoryStep(steps: seq<Step>, s: State, a: Step)
    requires HistoryOk(steps, s) && LiveInv(s) && Can(s, a)
    ensures HistoryOk(steps + [a], Apply(s, a))
  {
    var s' := Apply(s, a);
    forall o: nat | o < |s.queues|
      ensures |s'.queues| == |s.queues| && QueueMoves(s.queues[o], s'.queues[o], o, a)
    {
      QueueStep(s, a, o);
    }
    assert |s'.queues| == |s.queues|;
    forall o: nat | o < |s'.queues|
      ensures LeaveCreate(o) in steps + [a] <==> WasPublished(s'.queues[o].pc)
      ensures EnterDelete(o) in steps + [a] ==> s'.queues[o].pc.UnbindingFrom? || s'.queues[o].pc.Gone?
    {
      HistoryOne(steps, s, a, s', o);
    }
    forall o: nat | o < |s'.queues| && s'.queues[o].pc.Live?
      ensures o in s'.overrun <==> Overrun(steps + [a], s'.queues, o)
    {
      OverrunEffect(s, a, o);
      OverrunOne(steps, s, a, s', o);
    }
  }

  lemma {:induction false} RunHistory(s: State, steps: seq<Step>, s': State)
    requires Initial(s) && Reaches(s, steps, s')
    ensures HistoryOk(steps, s')
    decreases |steps|
  {
    if steps != [] {
      var last := |steps| - 1;
      var u :| Reaches(s, steps[..last], u) && Can(u, steps[last]) && s' == Apply(u, steps[last]);
      RunHistory(s, steps[..last], u);
      EveryRunKeepsInv(s, steps[..last], u);
      HistoryStep(steps[..last], u, steps[last]);
      assert steps == steps[..last] + [steps[last]];
    }
  }

  // ---------------------------------------------------------------- theorems

  /** Some create's scan binds to a processor whose detach is draining. */
  ghost predicate MeetsDrain(steps: seq<Step>) {
    exists i: nat, j: nat, o: nat, p: nat ::
      i < j < |steps| && steps[j] == BindProc(o, p) && DrainsFrom(steps[..j], i, p)
  }

  /** The detach of processor p has left the gate at step i and not unregistered the transport since. */
  ghost predicate DrainsFrom(steps: seq<Step>, i: nat, p: nat) {
    i < |steps| && steps[i] == LeaveDetach(p) && forall k :: i < k < |steps| ==> steps[k] != Unregister(p)
  }

  lemma {:induction false} DrainHistory(s: State, steps: seq<Step>, s': State, p: nat) returns (i: nat)
    requires Initial(s) && Reaches(s, steps, s') && p < |s'.procs| && s'.procs[p].Draining?
    ensures DrainsFrom(steps, i, p)
    decreases |steps|
  {
    StartsDetached(s, steps, s', p);
    var last := |steps| - 1;
    var u :| Reaches(s, steps[..last], u) && Can(u, steps[last]) && s' == Apply(u, steps[last]);
    if steps[last] == LeaveDetach(p) {
      DrainsNow(steps, p);
      i := last;
    } else {
      StillDrains(u, steps[last], p);
      i := DrainHistory(s, steps[..last], u, p);
      DrainsOn(steps, i, p);
    }
  }

  lemma StartsDetached(s: State, steps: seq<Step>, s': State, p: nat)
    requires Initial(s) && Reaches(s, steps, s') && p < |s'.procs| && !s'.procs[p].Detached?
    ensures steps != []
  {
  }

  lemma DrainsNow(steps: seq<Step>, p: nat)
    requires steps != [] && steps[|steps| - 1] == LeaveDetach(p)
    ensures DrainsFrom(steps, |steps| - 1, p)
  {
  }

  lemma DrainsOn(steps: seq<Step>, i: nat, p: nat)
    requires steps != [] && DrainsFrom(steps[..|steps| - 1], i, p) && steps[|steps| - 1] != Unregister(p)
    ensures DrainsFrom(steps, i, p)
  {
    var less := steps[..|steps| - 1];
    assert forall k :: 0 <= k < |less| ==> less[k] == steps[k];
  }

  lemma StillDrains(u: State, a: Step, p: nat)
    requires Can(u, a) && p < |Apply(u, a).procs| && Apply(u, a).procs[p].Draining? && a != LeaveDetach(p)
    ensures p < |u.procs| && u.procs[p].Draining? && a != Unregister(p)
  {
  }

  /** What a step does to the pairs bound late and to the sockets lost. */
  lemma LateStep(s: State, a: Step)
    requires Inv(s) && Can(s, a) && s.late == {} && s.lost == multiset{}
    requires a.BindProc? ==> !s.procs[a.p].Draining?
    ensures Apply(s, a).late == {} && Apply(s, a).lost == multiset{}
  {
    if a.Unregister? {
      forall x | x in s.table ensures x.0 != a.p {
        assert PairOk(s, x.0, x.1);
      }
      assert PairsOf(s.table, a.p) == {};
    }
  }

  /** THEOREM. No socket is ever lost while no create's scan meets a draining processor. */
  lemma {:induction false} NothingLost(s: State, steps: seq<Step>, s': State)
    requires Initial(s) && Reaches(s, steps, s') && !MeetsDrain(steps)
    ensures s'.late == {} && s'.lost == multiset{}
    decreases |steps|
  {
    if steps != [] {
      var last := |steps| - 1;
      var u :| Reaches(s, steps[..last], u) && Can(u, steps[last]) && s' == Apply(u, steps[last]);
      if MeetsDrain(steps[..last]) {
        MeetsGrows(steps);
      }
      NothingLost(s, steps[..last], u);
      EveryRunKeepsInv(s, steps[..last], u);
      if steps[last].BindProc? && u.procs[steps[last].p].Draining? {
        var i := DrainHistory(s, steps[..last], u, steps[last].p);
        MeetsNow(steps, i);
      }
      LateStep(u, steps[last]);
    }
  }

  lemma MeetsNow(steps: seq<Step>, i: nat)
    requires steps != [] && steps[|steps| - 1].BindProc? && DrainsFrom(steps[..|steps| - 1], i, steps[|steps| - 1].p)
    ensures MeetsDrain(steps)
  {
    var a := steps[|steps| - 1];
    assert a == BindProc(a.o, a.p);
  }

  lemma MeetsGrows(steps: seq<Step>)
    requires steps != [] && MeetsDrain(steps[..|steps| - 1])
    ensures MeetsDrain(steps)
  {
    var less := steps[..|steps| - 1];
    var i: nat, j: nat, o: nat, p: nat :| i < j < |less| && less[j] == BindProc(o, p) && DrainsFrom(less[..j], i, p);
    assert less[..j] == steps[..j] && steps[j] == BindProc(o, p);
  }

  /** THEOREM. The end of a detach loses exactly the sockets of the pairs that creates have bound since its
    * scan and no delete has unbound, and closes none; after it no other socket of the processor is open but
    * those lost before. */
  lemma DetachLoses(s: State, steps: seq<Step>, s': State, p: nat, q: nat)
    requires Initial(s) && Reaches(s, steps, s') && Can(s', Unregister(p))
    ensures var s'' := Apply(s', Unregister(p));
      && s''.lost[(p, q)] == s'.lost[(p, q)] + One((p, q) in s'.late)
      && s''.sockets[(p, q)] == s'.sockets[(p, q)] == s''.lost[(p, q)]
  {
    EveryRunKeepsInv(s, steps, s');
    StepKeepsInv(s', Unregister(p));
    assert PairOk(s', p, q);
    assert PairOk(Apply(s', Unregister(p)), p, q);
  }

  /** THEOREM. However attaches, detaches, creates and deletes interleave: but for lost sockets no processor
    * ever has two sockets for a queue index, one without a transport has none, and none is left for an
    * index all of whose queues are gone or not bound yet. */
  lemma NeverTwoSockets(s: State, steps: seq<Step>, s': State, p: nat, q: nat)
    requires Initial(s) && Reaches(s, steps, s')
    ensures s'.lost[(p, q)] <= s'.sockets[(p, q)] <= s'.lost[(p, q)] + 1
    ensures !IsRegistered(s', p) ==> s'.sockets[(p, q)] == s'.lost[(p, q)]
    ensures (forall o :: 0 <= o < |s'.queues| && s'.queues[o].index == q ==>
               s'.queues[o].pc.Unborn? || s'.queues[o].pc.Created? || s'.queues[o].pc.Gone?) ==>
            s'.sockets[(p, q)] == s'.lost[(p, q)]
    ensures !MeetsDrain(steps) ==> s'.lost[(p, q)] == 0
  {
    EveryRunKeepsInv(s, steps, s');
    PairSockets(s', p, q);
    assert At(s'.published, q).Some? ==> EntryOk(s', q, At(s'.published, q).value);
    if !MeetsDrain(steps) {
      NothingLost(s, steps, s');
    }
  }

  lemma PairSockets(s: State, p: nat, q: nat)
    requires TableInv(s) && SocketInv(s)
    ensures s.sockets[(p, q)] == s.lost[(p, q)] + One((p, q) in s.table)
    ensures (p, q) in s.table ==> IsRegistered(s, p) && BoundSide(s, p, q)
    ensures Passed(s, p, q) && BoundSide(s, p, q) ==> (p, q) in s.table
  {
    assert PairOk(s, p, q);
  }

  /** THEOREM. But for lost sockets, a live queue keeps its one socket for every attached processor, and its
    * entry in the array, until the delete of an earlier queue of its index enters the gate; when that
    * delete has left it, the live queue has no socket and no entry. So outside such a scan it has them if
    * and only if no delete of its index has entered the gate since it was published. */
  lemma OneSocketIff(s: State, steps: seq<Step>, s': State, p: nat, o: nat)
    requires Initial(s) && Reaches(s, steps, s')
    requires p < |s'.procs| && s'.procs[p].Attached? && o < |s'.queues| && s'.queues[o].pc.Live?
    ensures var q := s'.queues[o].index;
      && (!Overrun(steps, s'.queues, o) ==>
            s'.sockets[(p, q)] == s'.lost[(p, q)] + 1 && At(s'.published, q) == Some(o))
      && (Overrun(steps, s'.queues, o) && !ScanAt(s', q).UnbindingFrom? ==>
            s'.sockets[(p, q)] == s'.lost[(p, q)] && At(s'.published, q) == None)
  {
    EveryRunKeepsInv(s, steps, s');
    RunHistory(s, steps, s');
    var q := s'.queues[o].index;
    assert LiveOk(s', o);
    LiveHasNoScan(s', o);
    PairSockets(s', p, q);
  }

  /** The create of a live queue is over, and no other queue of its index is being created. */
  lemma LiveHasNoScan(s: State, o: nat)
    requires DaemonInv(s) && o < |s.queues| && s.queues[o].pc.Live?
    ensures !ScanAt(s, s.queues[o].index).BindingTo?
  {
    var q := s.queues[o].index;
    if ScanAt(s, q).BindingTo? {
      assert Holds(s.queues[s.gate.o], q) && Holds(s.queues[o], q);
    }
  }

  /** THEOREM. When Ipc_attach and Ipc_detach of processors and MessageQ_create of queues race in any
    * interleaving, then once attach and create have finished the queue is bound to the processor by exactly
    * one socket. Deletes may have begun, but none may have taken the gate, and no create may have met a
    * draining processor. */
  lemma AttachCreateRace(s: State, steps: seq<Step>, s': State, p: nat, o: nat)
    requires Initial(s) && Reaches(s, steps, s') && !MeetsDrain(steps)
    requires forall k :: 0 <= k < |steps| ==> !steps[k].EnterDelete?
    requires p < |s'.procs| && s'.procs[p].Attached? && o < |s'.queues| && s'.queues[o].pc.Live?
    ensures s'.sockets[(p, s'.queues[o].index)] == 1
  {
    OneSocketIff(s, steps, s', p, o);
    NothingLost(s, steps, s');
  }

  /** THEOREM. The gate's owner always has a step to take, so every scan ends. */
  lemma OwnerMoves(s: State, steps: seq<Step>, s': State)
    requires Initial(s) && Reaches(s, steps, s') && !s'.gate.Free?
    ensures exists a :: Can(s', a) && (a.BindQueue? || a.LeaveAttach? || a.UnbindQueue? || a.LeaveDetach?
                                       || a.BindProc? || a.LeaveCreate? || a.UnbindProc? || a.LeaveDelete?)
  {
    EveryRunKeepsInv(s, steps, s');
    match s'.gate
    case ByProc(p) =>
      var more := s'.procs[p].r < |s'.published|;
      if s'.procs[p].BindingQueues? {
        assert Can(s', if more then BindQueue(p) else LeaveAttach(p));
      } else {
        assert Can(s', if more then UnbindQueue(p) else LeaveDetach(p));
      }
    case ByQueue(o) =>
      var r := s'.queues[o].pc.r;
      if s'.queues[o].pc.BindingTo? {
        assert Can(s', if r < |s'.procs| then BindProc(o, r) else LeaveCreate(o));
      } else {
        assert Can(s', if r < |s'.procs| then UnbindProc(o) else LeaveDelete(o));
      }
  }

  /** A step of a scan under way. */
  predicate OfScan(a: Step) {
    a.BindQueue? || a.LeaveAttach? || a.UnbindQueue? || a.LeaveDetach? ||
    a.BindProc? || a.LeaveCreate? || a.UnbindProc? || a.LeaveDelete?
  }

  function ToGo(r: nat, n: nat): nat {
    if r < n then n - r + 1 else 1
  }

  /** How many steps the gate's owner still has to take. */
  function ScanLeft(s: State): nat {
    match s.gate
    case Free => 0
    case ByProc(p) =>
      if p < |s.procs| && (s.procs[p].BindingQueues? || s.procs[p].UnbindingQueues?)
      then ToGo(s.procs[p].r, |s.published|) else 0
    case ByQueue(o) =>
      if o < |s.queues| && (s.queues[o].pc.BindingTo? || s.queues[o].pc.UnbindingFrom?)
      then ToGo(s.queues[o].pc.r, |s.procs|) else 0
  }

  /** THEOREM. And it ends after as many steps as there are entries to visit and one more, whatever other
    * threads do in between; then the gate is free. */
  lemma ScanEnds(s: State, steps: seq<Step>, s': State, a: Step)
    requires Initial(s) && Reaches(s, steps, s') && !s'.gate.Free? && Can(s', a)
    ensures OfScan(a) ==> ScanLeft(Apply(s', a)) == ScanLeft(s') - 1
    ensures OfScan(a) ==> (ScanLeft(Apply(s', a)) == 0 <==> Apply(s', a).gate.Free?)
    ensures !OfScan(a) ==> Apply(s', a).gate == s'.gate && ScanLeft(Apply(s', a)) == ScanLeft(s')
  {
    EveryRunKeepsInv(s, steps, s');
    if OfScan(a) {
      ScanGoesDown(s', a);
    } else {
      ScanWaits(s', a);
    }
  }

  lemma ScanGoesDown(s: State, a: Step)
    requires GateInv(s) && Can(s, a) && OfScan(a)
    ensures ScanLeft(Apply(s, a)) == ScanLeft(s) - 1
    ensures ScanLeft(Apply(s, a)) == 0 <==> Apply(s, a).gate.Free?
  {
    if OfProcessor(a) {
      QueuesGoDown(s, a);
    } else {
      ProcsGoDown(s, a);
    }
  }

  /** A scan over the queues array. */
  lemma QueuesGoDown(s: State, a: Step)
    requires GateInv(s) && Can(s, a) && OfScan(a) && OfProcessor(a)
    ensures ScanLeft(Apply(s, a)) == ScanLeft(s) - 1
    ensures ScanLeft(Apply(s, a)) == 0 <==> Apply(s, a).gate.Free?
  {
    assert s.gate == ByProc(a.p);
  }

  /** A scan over the transports. */
  lemma ProcsGoDown(s: State, a: Step)
    requires GateInv(s) && Can(s, a) && OfScan(a) && !OfProcessor(a)
    ensures ScanLeft(Apply(s, a)) == ScanLeft(s) - 1
    ensures ScanLeft(Apply(s, a)) == 0 <==> Apply(s, a).gate.Free?
  {
    if a.BindProc? || a.LeaveCreate? {
      CreateGoesDown(s, a);
    } else {
      DeleteGoesDown(s, a);
    }
  }

  lemma CreateGoesDown(s: State, a: Step)
    requires GateInv(s) && Can(s, a) && (a.BindProc? || a.LeaveCreate?)
    ensures ScanLeft(Apply(s, a)) == ScanLeft(s) - 1
    ensures ScanLeft(Apply(s, a)) == 0 <==> Apply(s, a).gate.Free?
  {
    assert s.gate == ByQueue(a.o);
  }

  lemma DeleteGoesDown(s: State, a: Step)
    requires GateInv(s) && Can(s, a) && (a.UnbindProc? || a.LeaveDelete?)
    ensures ScanLeft(Apply(s, a)) == ScanLeft(s) - 1
    ensures ScanLeft(Apply(s, a)) == 0 <==> Apply(s, a).gate.Free?
  {
    assert s.gate == ByQueue(a.o);
  }

  lemma ScanWaits(s: State, a: Step)
    requires GateInv(s) && !s.gate.Free? && Can(s, a) && !OfScan(a)
    ensures Apply(s, a).gate == s.gate && ScanLeft(Apply(s, a)) == ScanLeft(s)
  {
  }

  // ---------------------------------------------------------------- failing runs

  lemma Append(s: State, steps: seq<Step>, u: State, a: Step, s': State)
    requires Reaches(s, steps, u) && Can(u, a) && s' == Apply(u, a)
    ensures Reaches(s, steps + [a], s')
  {
    assert (steps + [a])[..|steps|] == steps;
  }

  /** A machine of one other processor and two queue objects, both of index 0. */
  function Two(proc: Attach, first: Pc, second: Pc, published: seq<Option<nat>>, gate: Gate, bound: bool): State {
    State([proc], [Queue(0, first), Queue(0, second)], published, gate,
          if bound then {(0, 0)} else {}, if bound then multiset{(0, 0)} else multiset{}, {}, {}, multiset{})
  }

  /** The array once it has grown for index 0. */
  function Array(entry: Option<nat>): seq<Option<nat>> {
    Grown([], 0, None)[0 := entry]
  }

  lemma GrowsOnce(entry: Option<nat>, next: Option<nat>)
    ensures Grown(Array(entry), 0, None)[0 := next] == Array(next)
  {
  }

  /** The processor attaches while there is no queue, and queue 0 is given index 0. */
  lemma AttachFirst(s: State) returns (steps: seq<Step>, s': State)
    requires s == Two(Detached, Unborn, Unborn, [], Free, false)
    ensures Reaches(s, steps, s') && s' == Two(Attached, Unborn, Unborn, [], Free, false)
  {
    var s1 := Two(Registered, Unborn, Unborn, [], Free, false);
    Append(s, [], s, Register(0), s1);
    var s2 := Two(BindingQueues(0), Unborn, Unborn, [], ByProc(0), false);
    Append(s, [] + [Register(0)], s1, EnterAttach(0), s2);
    s' := Two(Attached, Unborn, Unborn, [], Free, false);
    Append(s, [] + [Register(0)] + [EnterAttach(0)], s2, LeaveAttach(0), s');
    steps := [] + [Register(0)] + [EnterAttach(0)] + [LeaveAttach(0)];
  }

  /** Queue 0 is created, bound and published. */
  lemma CreateFirst(start: State, before: seq<Step>, s: State) returns (steps: seq<Step>, s': State)
    requires Reaches(start, before, s) && s == Two(Attached, Unborn, Unborn, [], Free, false)
    ensures Reaches(start, steps, s') && s' == Two(Attached, Live, Unborn, Array(Some(0)), Free, true)
  {
    var s1 := Two(Attached, Created, Unborn, [], Free, false);
    Append(start, before, s, Create(0, 0), s1);
    steps, s' := BindFirst(start, before + [Create(0, 0)], s1);
  }

  lemma BindFirst(start: State, before: seq<Step>, s: State) returns (steps: seq<Step>, s': State)
    requires Reaches(start, before, s) && s == Two(Attached, Created, Unborn, [], Free, false)
    ensures Reaches(start, steps, s') && s' == Two(Attached, Live, Unborn, Array(Some(0)), Free, true)
  {
    var s1 := Two(Attached, BindingTo(0), Unborn, [], ByQueue(0), false);
    Append(start, before, s, EnterCreate(0), s1);
    var s2 := Two(Attached, BindingTo(1), Unborn, [], ByQueue(0), true);
    BindsPair(s1, s2);
    Append(start, before + [EnterCreate(0)], s1, BindProc(0, 0), s2);
    steps, s' := PublishFirst(start, before + [EnterCreate(0)] + [BindProc(0, 0)], s2);
  }

  lemma PublishFirst(start: State, before: seq<Step>, s: State) returns (steps: seq<Step>, s': State)
    requires Reaches(start, before, s) && s == Two(Attached, BindingTo(1), Unborn, [], ByQueue(0), true)
    ensures Reaches(start, steps, s') && s' == Two(Attached, Live, Unborn, Array(Some(0)), Free, true)
  {
    s' := Two(Attached, Live, Unborn, Array(Some(0)), Free, true);
    Append(start, before, s, LeaveCreate(0), s');
    steps := before + [LeaveCreate(0)];
  }

  lemma BindsPair(s: State, s': State)
    requires s == Two(Attached, BindingTo(0), Unborn, [], ByQueue(0), false)
    requires s' == Two(Attached, BindingTo(1), Unborn, [], ByQueue(0), true)
    ensures Can(s, BindProc(0, 0)) && s' == Apply(s, BindProc(0, 0))
  {
    var none: set<(nat, nat)> := {};
    assert none + {(0, 0)} == {(0, 0)};
  }

  /** The daemon frees index 0 for the delete of queue 0 and gives it to queue 1, which finds the socket
    * of queue 0 and is published. */
  lemma CreateSecond(start: State, before: seq<Step>, s: State) returns (steps: seq<Step>, s': State)
    requires Reaches(start, before, s) && s == Two(Attached, Live, Unborn, Array(Some(0)), Free, true)
    ensures Reaches(start, steps, s') && s' == Two(Attached, Freed, Live, Array(Some(1)), Free, true)
  {
    var s1 := Two(Attached, Freed, Unborn, Array(Some(0)), Free, true);
    Append(start, before, s, FreeIndex(0), s1);
    var s2 := Two(Attached, Freed, Created, Array(Some(0)), Free, true);
    Append(start, before + [FreeIndex(0)], s1, Create(1, 0), s2);
    steps, s' := BindSecond(start, before + [FreeIndex(0)] + [Create(1, 0)], s2);
  }

  lemma BindSecond(start: State, before: seq<Step>, s: State) returns (steps: seq<Step>, s': State)
    requires Reaches(start, before, s) && s == Two(Attached, Freed, Created, Array(Some(0)), Free, true)
    ensures Reaches(start, steps, s') && s' == Two(Attached, Freed, Live, Array(Some(1)), Free, true)
  {
    var s1 := Two(Attached, Freed, BindingTo(0), Array(Some(0)), ByQueue(1), true);
    Append(start, before, s, EnterCreate(1), s1);
    var s2 := Two(Attached, Freed, BindingTo(1), Array(Some(0)), ByQueue(1), true);
    Append(start, before + [EnterCreate(1)], s1, BindProc(1, 0), s2);
    GrowsOnce(Some(0), Some(1));
    s' := Two(Attached, Freed, Live, Array(Some(1)), Free, true);
    Append(start, before + [EnterCreate(1)] + [BindProc(1, 0)], s2, LeaveCreate(1), s');
    steps := before + [EnterCreate(1)] + [BindProc(1, 0)] + [LeaveCreate(1)];
  }

  /** The delete of queue 0 goes on: it closes the socket and clears the entry of queue 1. */
  lemma DeleteFirst(start: State, before: seq<Step>, s: State) returns (steps: seq<Step>, s': State)
    requires Reaches(start, before, s) && s == Two(Attached, Freed, Live, Array(Some(1)), Free, true)
    ensures Reaches(start, steps, s')
    ensures s' == Two(Attached, Gone, Live, Array(None), Free, false).(overrun := {1})
  {
    var s1 := Two(Attached, UnbindingFrom(0), Live, Array(Some(1)), ByQueue(0), true).(overrun := {1});
    assert LiveAt(s, 0) == {1};
    Append(start, before, s, EnterDelete(0), s1);
    var s2 := Two(Attached, UnbindingFrom(1), Live, Array(Some(1)), ByQueue(0), false).(overrun := {1});
    Append(start, before + [EnterDelete(0)], s1, UnbindProc(0), s2);
    steps, s' := ClearFirst(start, before + [EnterDelete(0)] + [UnbindProc(0)], s2);
  }

  lemma ClearFirst(start: State, before: seq<Step>, s: State) returns (steps: seq<Step>, s': State)
    requires Reaches(start, before, s)
    requires s == Two(Attached, UnbindingFrom(1), Live, Array(Some(1)), ByQueue(0), false).(overrun := {1})
    ensures Reaches(start, steps, s')
    ensures s' == Two(Attached, Gone, Live, Array(None), Free, false).(overrun := {1})
  {
    GrowsOnce(Some(1), None);
    s' := Two(Attached, Gone, Live, Array(None), Free, false).(overrun := {1});
    Append(start, before, s, LeaveDelete(0), s');
    steps := before + [LeaveDelete(0)];
  }

  /** THEOREM. A run from an initial state after which a queue is live and its processor attached, nothing
    * is under way, and yet the queue has no socket and no entry in the array. */
  lemma OverrunRun() returns (s: State, steps: seq<Step>, s': State)
    ensures Initial(s) && Reaches(s, steps, s')
    ensures s'.gate.Free? && s'.procs == [Attached] && |s'.queues| == 2 && s'.queues[1] == Queue(0, Live)
    ensures s'.sockets[(0, 0)] == 0 && At(s'.published, 0) == None
    ensures Overrun(steps, s'.queues, 1)
  {
    s := Two(Detached, Unborn, Unborn, [], Free, false);
    var before, u := TwoCreated(s);
    steps, s' := DeleteFirst(s, before, u);
    OverrunShows(s, steps, s', 1);
  }

  lemma TwoCreated(s: State) returns (steps: seq<Step>, s': State)
    requires s == Two(Detached, Unborn, Unborn, [], Free, false)
    ensures Reaches(s, steps, s') && s' == Two(Attached, Freed, Live, Array(Some(1)), Free, true)
  {
    var u: State;
    steps, u := AttachFirst(s);
    steps, u := CreateFirst(s, steps, u);
    steps, s' := CreateSecond(s, steps, u);
  }

  lemma OverrunShows(s: State, steps: seq<Step>, s': State, o: nat)
    requires Initial(s) && Reaches(s, steps, s') && o < |s'.queues| && s'.queues[o].pc.Live? && o in s'.overrun
    ensures Overrun(steps, s'.queues, o)
  {
    RunHistory(s, steps, s');
  }

  /** The processor is detached while queue 0 has its index and waits for the gate. */
  lemma DetachBefore(start: State, before: seq<Step>, s: State) returns (steps: seq<Step>, s': State)
    requires Reaches(start, before, s) && s == Two(Attached, Unborn, Unborn, [], Free, false)
    ensures Reaches(start, steps, s') && s' == Two(Draining, Created, Unborn, [], Free, false)
  {
    var s1 := Two(Attached, Created, Unborn, [], Free, false);
    Append(start, before, s, Create(0, 0), s1);
    var s2 := Two(UnbindingQueues(0), Created, Unborn, [], ByProc(0), false);
    Append(start, before + [Create(0, 0)], s1, EnterDetach(0), s2);
    s' := Two(Draining, Created, Unborn, [], Free, false);
    Append(start, before + [Create(0, 0)] + [EnterDetach(0)], s2, LeaveDetach(0), s');
    steps := before + [Create(0, 0)] + [EnterDetach(0)] + [LeaveDetach(0)];
  }

  /** The create binds queue 0 to the processor, whose transport is still registered. */
  lemma BindLate(start: State, before: seq<Step>, s: State) returns (steps: seq<Step>, s': State)
    requires Reaches(start, before, s) && s == Two(Draining, Created, Unborn, [], Free, false)
    ensures Reaches(start, steps, s')
    ensures s' == Two(Draining, BindingTo(1), Unborn, [], ByQueue(0), true).(late := {(0, 0)})
  {
    var s1 := Two(Draining, BindingTo(0), Unborn, [], ByQueue(0), false);
    Append(start, before, s, EnterCreate(0), s1);
    s' := Two(Draining, BindingTo(1), Unborn, [], ByQueue(0), true).(late := {(0, 0)});
    BindsLate(s1, s');
    Append(start, before + [EnterCreate(0)], s1, BindProc(0, 0), s');
    steps := before + [EnterCreate(0)] + [BindProc(0, 0)];
  }

  lemma BindsLate(s: State, s': State)
    requires s == Two(Draining, BindingTo(0), Unborn, [], ByQueue(0), false)
    requires s' == Two(Draining, BindingTo(1), Unborn, [], ByQueue(0), true).(late := {(0, 0)})
    ensures Can(s, BindProc(0, 0)) && s' == Apply(s, BindProc(0, 0))
  {
    var none: set<(nat, nat)> := {};
    assert none + {(0, 0)} == {(0, 0)};
  }

  /** The queue is published, and then the transport goes, with its index table. */
  lemma UnregisterLate(start: State, before: seq<Step>, s: State) returns (steps: seq<Step>, s': State)
    requires Reaches(start, before, s)
    requires s == Two(Draining, BindingTo(1), Unborn, [], ByQueue(0), true).(late := {(0, 0)})
    ensures Reaches(start, steps, s') && s'.procs == [Detached] && s'.gate.Free?
    ensures s'.queues == [Queue(0, Live), Queue(0, Unborn)]
    ensures s'.sockets[(0, 0)] == 1 && s'.table == {} && s'.lost[(0, 0)] == 1
  {
    var s1 := Two(Draining, Live, Unborn, Array(Some(0)), Free, true).(late := {(0, 0)});
    Append(start, before, s, LeaveCreate(0), s1);
    assert PairsOf(s1.table, 0) == {(0, 0)};
    s' := Apply(s1, Unregister(0));
    Append(start, before + [LeaveCreate(0)], s1, Unregister(0), s');
    steps := before + [LeaveCreate(0)] + [Unregister(0)];
  }

  /** THEOREM. A run from an initial state after which the processor is detached, nothing is under way, and
    * a socket for it is open that no table knows. */
  lemma LateBindRun() returns (s: State, steps: seq<Step>, s': State)
    ensures Initial(s) && Reaches(s, steps, s')
    ensures s'.procs == [Detached] && s'.gate.Free? && s'.queues == [Queue(0, Live), Queue(0, Unborn)]
    ensures s'.sockets[(0, 0)] == 1 && s'.table == {} && s'.lost[(0, 0)] == 1
  {
    s := Two(Detached, Unborn, Unborn, [], Free, false);
    var u: State;
    steps, u := AttachFirst(s);
    steps, u := DetachBefore(s, steps, u);
    steps, u := BindLate(s, steps, u);
    steps, s' := UnregisterLate(s, steps, u);
  }
}
