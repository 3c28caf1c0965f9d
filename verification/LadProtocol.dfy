/** Requests to the LAD daemon: client processes with any number of threads write commands to one FIFO,
  * the daemon answers each on the FIFO of the process that owns the client slot, and a thread keeps its
  * process's gate from writing a command until it has read the answer. */
module LadProtocol {
  import opened Counting

  const MAXNUMCLIENTS: nat := 32

  datatype Request = Connect | Call(slot: nat) | Disconnect(slot: nat)

  /** serial tells commands apart. */
  datatype Command = Command(proc: nat, serial: nat, request: Request)

  /** The daemon's answer to a command; slot is what a connect was assigned. */
  datatype Response = Response(to: Command, slot: Option<nat>)

  datatype Connection = NotConnected | Connecting | Connected(slot: nat) | Disconnecting(slot: nat)

  /** gate is the thread that holds the process's gate, fifo its response FIFO. */
  datatype Process = Process(conn: Connection, gate: Option<nat>, fifo: seq<Response>)

  /** A thread outside, or between its command and the answer to it. */
  datatype Pc = Idle | Waiting(cmd: Command)

  datatype Thread = Thread(proc: nat, pc: Pc)

  /** History of one finished exchange: what the thread asked and what the answer it read was to. */
  datatype Exchange = Exchange(asked: Command, answered: Command)

  /** slots[k] is the process that owns client slot k in the daemon. */
  datatype State = State(
    procs: seq<Process>, threads: seq<Thread>, commands: seq<Command>, slots: seq<Option<nat>>,
    next: nat, log: seq<Exchange>)

  datatype Step =
    | PutConnect(t: nat) | PutCall(t: nat) | PutDisconnect(t: nat) | GetResponse(t: nat)
    | SeeClosed(p: nat) | Serve

  // ---------------------------------------------------------------- client side

  predicate IsThread(s: State, t: nat) {
    t < |s.threads| && s.threads[t].proc < |s.procs|
  }

  function ProcOf(s: State, t: nat): Process
    requires IsThread(s, t)
  {
    s.procs[s.threads[t].proc]
  }

  predicate CanPut(s: State, t: nat) {
    IsThread(s, t) && s.threads[t].pc.Idle? && ProcOf(s, t).gate == None
  }

  /** Takes the gate, writes the command and goes on to wait for the answer. */
  function Put(s: State, t: nat, request: Request, conn: Connection): State
    requires IsThread(s, t)
  {
    var p := s.threads[t].proc;
    var cmd := Command(p, s.next, request);
    s.(procs := s.procs[p := s.procs[p].(conn := conn, gate := Some(t))],
       threads := s.threads[t := Thread(p, Waiting(cmd))],
       commands := s.commands + [cmd], next := s.next + 1)
  }

  /** A disconnect is not answered: the gate is given back at once. */
  function PutAndLeave(s: State, t: nat, slot: nat): State
    requires IsThread(s, t)
  {
    var p := s.threads[t].proc;
    s.(procs := s.procs[p := s.procs[p].(conn := Disconnecting(slot))],
       commands := s.commands + [Command(p, s.next, Disconnect(slot))], next := s.next + 1)
  }

  predicate CanGet(s: State, t: nat) {
    IsThread(s, t) && s.threads[t].pc.Waiting? && ProcOf(s, t).fifo != []
  }

  function Get(s: State, t: nat): State
    requires CanGet(s, t)
  {
    var p := s.threads[t].proc;
    var cmd := s.threads[t].pc.cmd;
    var r := s.procs[p].fifo[0];
    var conn := if !cmd.request.Connect? then s.procs[p].conn
                else if r.slot.Some? then Connected(r.slot.value) else NotConnected;
    s.(procs := s.procs[p := Process(conn, None, s.procs[p].fifo[1..])],
       threads := s.threads[t := Thread(p, Idle)], log := s.log + [Exchange(cmd, r.to)])
  }

  // ---------------------------------------------------------------- daemon side

  /** The first free slot, or the number of slots. */
  function FreeSlot(slots: seq<Option<nat>>): (k: nat)
    ensures k <= |slots| && (k < |slots| ==> slots[k] == None)
    ensures forall j :: 0 <= j < k ==> slots[j].Some?
  {
    if slots == [] || slots[0] == None then 0
    else
      var k := FreeSlot(slots[1..]);
      assert forall j :: 1 <= j < k + 1 ==> slots[j] == slots[1..][j - 1];
      k + 1
  }

  function Send(s: State, p: nat, r: Response): State
    requires p < |s.procs|
  {
    s.(procs := s.procs[p := s.procs[p].(fifo := s.procs[p].fifo + [r])])
  }

  /** The FIFO an answer is written to is the one of the process that owns the slot. */
  predicate CanServe(s: State) {
    && s.commands != []
    && var c := s.commands[0];
       match c.request
       case Connect => c.proc < |s.procs|
       case Call(k) => k < |s.slots| && s.slots[k].Some? && s.slots[k].value < |s.procs|
       case Disconnect(k) => k < |s.slots|
  }

  function ApplyServe(s: State): State
    requires CanServe(s)
  {
    var c := s.commands[0];
    var t := s.(commands := s.commands[1..]);
    match c.request
    case Connect =>
      var k := FreeSlot(s.slots);
      if k < |s.slots| then Send(t.(slots := s.slots[k := Some(c.proc)]), c.proc, Response(c, Some(k)))
      else Send(t, c.proc, Response(c, None))
    case Call(k) => Send(t, s.slots[k].value, Response(c, None))
    case Disconnect(k) => t.(slots := s.slots[k := None])
  }

  predicate Can(s: State, a: Step) {
    match a
    case PutConnect(t) => CanPut(s, t) && ProcOf(s, t).conn.NotConnected?
    case PutCall(t) => CanPut(s, t) && ProcOf(s, t).conn.Connected?
    case PutDisconnect(t) => CanPut(s, t) && ProcOf(s, t).conn.Connected?
    case GetResponse(t) => CanGet(s, t)
    case SeeClosed(p) =>
      p < |s.procs| && s.procs[p].conn.Disconnecting?
      && (s.procs[p].conn.slot < |s.slots| ==> s.slots[s.procs[p].conn.slot] != Some(p))
    case Serve => CanServe(s)
  }

  function Apply(s: State, a: Step): State
    requires Can(s, a)
  {
    match a
    case PutConnect(t) => Put(s, t, Connect, Connecting)
    case PutCall(t) => Put(s, t, Call(ProcOf(s, t).conn.slot), ProcOf(s, t).conn)
    case PutDisconnect(t) => PutAndLeave(s, t, ProcOf(s, t).conn.slot)
    case GetResponse(t) => Get(s, t)
    case SeeClosed(p) => s.(procs := s.procs[p := s.procs[p].(conn := NotConnected)])
    case Serve => ApplyServe(s)
  }

  predicate Initial(s: State) {
    && |s.slots| == MAXNUMCLIENTS && (forall k :: 0 <= k < |s.slots| ==> s.slots[k] == None)
    && s.commands == [] && s.log == []
    && (forall p :: 0 <= p < |s.procs| ==> s.procs[p] == Process(NotConnected, None, []))
    && (forall t :: 0 <= t < |s.threads| ==> s.threads[t].proc < |s.procs| && s.threads[t].pc.Idle?)
  }

  // ---------------------------------------------------------------- invariant

  /** The commands of one process in the FIFO, in order. */
  function Pending(commands: seq<Command>, p: nat): seq<Command> {
    if commands == [] then []
    else (if commands[0].proc == p then [commands[0]] else []) + Pending(commands[1..], p)
  }

  lemma PendingFirst(commands: seq<Command>, p: nat)
    requires commands != []
    ensures Pending(commands, p) == (if commands[0].proc == p then [commands[0]] else []) + Pending(commands[1..], p)
  {
  }

  lemma {:induction false} PendingAppend(commands: seq<Command>, c: Command, p: nat)
    ensures Pending(commands + [c], p) == Pending(commands, p) + (if c.proc == p then [c] else [])
  {
    var more := commands + [c];
    if commands == [] {
      assert more[0] == c && more[1..] == [];
    } else {
      PendingAppend(commands[1..], c, p);
      assert more[0] == commands[0];
      assert more[1..] == commands[1..] + [c];
      PendingFirst(commands, p);
      PendingFirst(more, p);
    }
  }

  predicate Owns(s: State, p: nat, k: nat) {
    k < |s.slots| && s.slots[k] == Some(p)
  }

  /** The command is in the FIFO and the process has no answer, or the answer is there and nothing else. */
  predicate UnderWay(x: Process, pending: seq<Command>, cmd: Command) {
    if x.fifo == [] then pending == [cmd] else pending == [] && |x.fifo| == 1 && x.fifo[0].to == cmd
  }

  /** A process whose gate is free has no exchange under way, one whose gate is held exactly that of the
    * holder; while it disconnects its only command is the disconnect. */
  predicate ProcOk(s: State, p: nat)
    requires p < |s.procs|
  {
    var x := s.procs[p];
    var pending := Pending(s.commands, p);
    match x.gate
    case None =>
      && x.fifo == []
      && (match x.conn
          case Connecting => false
          case Disconnecting(k) =>
            pending == [] || (|pending| == 1 && pending[0].request == Disconnect(k) && Owns(s, p, k))
          case _ => pending == [])
    case Some(t) =>
      && t < |s.threads| && s.threads[t].proc == p && s.threads[t].pc.Waiting?
      && var cmd := s.threads[t].pc.cmd;
         && cmd.proc == p && UnderWay(x, pending, cmd)
         && (match x.conn
             case Connecting =>
               cmd.request.Connect? && (x.fifo != [] && x.fifo[0].slot.Some? ==> Owns(s, p, x.fifo[0].slot.value))
             case Connected(k) => cmd.request == Call(k)
             case _ => false)
  }

  /** A connected process owns its slot. */
  predicate ConnOk(s: State, p: nat)
    requires p < |s.procs|
  {
    s.procs[p].conn.Connected? ==> Owns(s, p, s.procs[p].conn.slot)
  }

  /** A slot is owned by a process that knows it, or is about to read it, or whose disconnect is not
    * served yet. */
  predicate SlotOk(s: State, k: nat)
    requires k < |s.slots|
  {
    s.slots[k].Some? ==>
      var p := s.slots[k].value;
      && p < |s.procs|
      && match s.procs[p].conn
         case NotConnected => false
         case Connecting => |s.procs[p].fifo| == 1 && s.procs[p].fifo[0].slot == Some(k)
         case Connected(j) => j == k
         case Disconnecting(j) => j == k && Pending(s.commands, p) != []
  }

  predicate QueueInv(s: State) {
    forall i :: 0 <= i < |s.commands| ==> s.commands[i].proc < |s.procs|
  }

  predicate ThreadInv(s: State) {
    forall t :: 0 <= t < |s.threads| ==>
      && s.threads[t].proc < |s.procs|
      && (s.threads[t].pc.Waiting? ==> s.procs[s.threads[t].proc].gate == Some(t))
  }

  predicate LogInv(s: State) {
    forall k :: 0 <= k < |s.log| ==> s.log[k].asked == s.log[k].answered
  }

  ghost predicate ProcsInv(s: State) {
    forall p: nat :: p < |s.procs| ==> ProcOk(s, p) && ConnOk(s, p)
  }

  ghost predicate SlotsInv(s: State) {
    |s.slots| == MAXNUMCLIENTS && forall k: nat :: k < |s.slots| ==> SlotOk(s, k)
  }

  ghost predicate Inv(s: State) {
    QueueInv(s) && ProcsInv(s) && SlotsInv(s) && ThreadInv(s) && LogInv(s)
  }

  lemma InitialInv(s: State)
    requires Initial(s)
    ensures Inv(s)
  {
  }

  // ---------------------------------------------------------------- steps keep the invariant

  /** A step of process p, which changes no other process, no other process's commands, threads or
    * slots, keeps what is said about the others. */
  lemma OthersKept(s: State, s': State, p: nat)
    requires Inv(s) && p < |s.procs| == |s'.procs| && |s'.threads| == |s.threads| && |s'.slots| == |s.slots|
    requires forall q: nat :: q < |s.procs| && q != p ==>
      s'.procs[q] == s.procs[q] && Pending(s'.commands, q) == Pending(s.commands, q)
    requires forall t: nat :: t < |s.threads| && s.threads[t].proc != p ==> s'.threads[t] == s.threads[t]
    requires forall k: nat :: k < |s.slots| && s'.slots[k] != s.slots[k] ==>
      (s.slots[k] == None || s.slots[k] == Some(p)) && (s'.slots[k] == None || s'.slots[k] == Some(p))
    requires ProcOk(s', p) && ConnOk(s', p)
    requires forall k: nat :: k < |s'.slots| && s'.slots[k] == Some(p) ==> SlotOk(s', k)
    ensures ProcsInv(s') && SlotsInv(s')
  {
    forall q: nat | q < |s'.procs| ensures ProcOk(s', q) && ConnOk(s', q) {
      if q != p {
        assert ProcOk(s, q) && ConnOk(s, q);
      }
    }
    forall k: nat | k < |s'.slots| ensures SlotOk(s', k) {
      assert SlotOk(s, k);
    }
  }

  lemma PutKeeps(s: State, t: nat, request: Request, conn: Connection)
    requires Inv(s) && CanPut(s, t)
    requires if request.Connect? then ProcOf(s, t).conn.NotConnected? && conn.Connecting?
             else conn.Connected? && conn == ProcOf(s, t).conn && request == Call(conn.slot)
    ensures Inv(Put(s, t, request, conn))
  {
    var s' := Put(s, t, request, conn);
    var p := s.threads[t].proc;
    assert ProcOk(s, p) && ConnOk(s, p);
    forall q: nat ensures Pending(s'.commands, q) ==
      Pending(s.commands, q) + if q == p then [Command(p, s.next, request)] else []
    {
      PendingAppend(s.commands, Command(p, s.next, request), q);
    }
    forall k: nat | k < |s.slots| && s.slots[k] == Some(p) ensures SlotOk(s', k) {
      assert SlotOk(s, k);
    }
    OthersKept(s, s', p);
  }

  lemma DisconnectKeeps(s: State, t: nat)
    requires Inv(s) && Can(s, PutDisconnect(t))
    ensures Inv(Apply(s, PutDisconnect(t)))
  {
    var s' := Apply(s, PutDisconnect(t));
    var p := s.threads[t].proc;
    assert ProcOk(s, p) && ConnOk(s, p);
    forall q: nat ensures Pending(s'.commands, q) ==
      Pending(s.commands, q) + if q == p then [s'.commands[|s.commands|]] else []
    {
      PendingAppend(s.commands, s'.commands[|s.commands|], q);
    }
    forall k: nat | k < |s.slots| && s.slots[k] == Some(p) ensures SlotOk(s', k) {
      assert SlotOk(s, k);
    }
    OthersKept(s, s', p);
  }

  lemma GetKeeps(s: State, t: nat)
    requires Inv(s) && Can(s, GetResponse(t))
    ensures Inv(Apply(s, GetResponse(t)))
  {
    var s' := Apply(s, GetResponse(t));
    var p := s.threads[t].proc;
    assert ProcOk(s, p) && ConnOk(s, p);
    forall k: nat | k < |s.slots| && s.slots[k] == Some(p) ensures SlotOk(s', k) {
      assert SlotOk(s, k);
    }
    OthersKept(s, s', p);
  }

  lemma SeeClosedKeeps(s: State, p: nat)
    requires Inv(s) && Can(s, SeeClosed(p))
    ensures Inv(Apply(s, SeeClosed(p)))
  {
    var s' := Apply(s, SeeClosed(p));
    assert ProcOk(s, p) && ConnOk(s, p);
    forall k: nat | k < |s.slots| && s.slots[k] == Some(p) ensures SlotOk(s', k) {
      assert SlotOk(s, k);
    }
    OthersKept(s, s', p);
  }

  /** The daemon can always serve the command at the head, and answers the process it came from. */
  lemma HeadServable(s: State)
    requires Inv(s) && s.commands != []
    ensures CanServe(s)
    ensures s.commands[0].request.Call? ==> s.slots[s.commands[0].request.slot] == Some(s.commands[0].proc)
  {
    var p := s.commands[0].proc;
    assert ProcOk(s, p) && ConnOk(s, p);
    assert Pending(s.commands, p)[0] == s.commands[0];
  }

  /** The head of the FIFO is the only command of its process, and the one its gate's holder waits for,
    * if the gate is held. */
  lemma HeadOfFifo(s: State)
    requires Inv(s) && s.commands != []
    ensures var c := s.commands[0];
      && c.proc < |s.procs| && Pending(s.commands[1..], c.proc) == [] && s.procs[c.proc].fifo == []
      && (match s.procs[c.proc].gate
          case None =>
            && s.procs[c.proc].conn.Disconnecting? && c.request == Disconnect(s.procs[c.proc].conn.slot)
            && Owns(s, c.proc, c.request.slot)
          case Some(t) => t < |s.threads| && s.threads[t] == Thread(c.proc, Waiting(c)) && !c.request.Disconnect?)
  {
    var c := s.commands[0];
    assert ProcOk(s, c.proc);
    var pending := Pending(s.commands, c.proc);
    assert pending == [c] + Pending(s.commands[1..], c.proc);
    assert pending[0] == c && |pending| == 1;
  }

  lemma ServedProc(s: State)
    requires Inv(s) && Can(s, Serve)
    ensures var s', p := Apply(s, Serve), s.commands[0].proc;
      p < |s'.procs| && ProcOk(s', p) && ConnOk(s', p)
  {
    HeadServable(s);
    HeadOfFifo(s);
    var p := s.commands[0].proc;
    assert ProcOk(s, p) && ConnOk(s, p);
  }

  lemma ServedSlots(s: State)
    requires Inv(s) && Can(s, Serve)
    ensures var s', p := Apply(s, Serve), s.commands[0].proc;
      && |s'.slots| == |s.slots|
      && (forall k: nat :: k < |s.slots| && s'.slots[k] != s.slots[k] ==>
           (s.slots[k] == None || s.slots[k] == Some(p)) && (s'.slots[k] == None || s'.slots[k] == Some(p)))
      && (forall k: nat :: k < |s'.slots| && s'.slots[k] == Some(p) ==> SlotOk(s', k))
  {
    HeadServable(s);
    HeadOfFifo(s);
    var s', p := Apply(s, Serve), s.commands[0].proc;
    assert ProcOk(s, p);
    forall k: nat | k < |s'.slots| && s'.slots[k] == Some(p) ensures SlotOk(s', k) {
      assert SlotOk(s, k);
    }
  }

  lemma ServeKeeps(s: State)
    requires Inv(s) && Can(s, Serve)
    ensures Inv(Apply(s, Serve))
  {
    HeadServable(s);
    ServedProc(s);
    ServedSlots(s);
    OthersKept(s, Apply(s, Serve), s.commands[0].proc);
  }

  lemma StepKeepsInv(s: State, a: Step)
    requires Inv(s) && Can(s, a)
    ensures Inv(Apply(s, a))
  {
    match a
    case PutConnect(t) => PutKeeps(s, t, Connect, Connecting);
    case PutCall(t) => PutKeeps(s, t, Call(ProcOf(s, t).conn.slot), ProcOf(s, t).conn);
    case PutDisconnect(t) => DisconnectKeeps(s, t);
    case GetResponse(t) => GetKeeps(s, t);
    case SeeClosed(p) => SeeClosedKeeps(s, p);
    case Serve => ServeKeeps(s);
  }

  // ---------------------------------------------------------------- theorems

  ghost predicate Reaches(s: State, steps: seq<Step>, s': State)
    decreases |steps|
  {
    if steps == [] then s' == s
    else
      var last := |steps| - 1;
      exists u :: Reaches(s, steps[..last], u) && Can(u, steps[last]) && s' == Apply(u, steps[last])
  }

  lemma {:induction false} EveryRunKeepsInv(s: State, steps: seq<Step>, s': State)
    requires Initial(s) && Reaches(s, steps, s')
    ensures Inv(s')
    decreases |steps|
  {
    if steps == [] {
      InitialInv(s);
    } else {
      var last := |steps| - 1;
      var u :| Reaches(s, steps[..last], u) && Can(u, steps[last]) && s' == Apply(u, steps[last]);
      EveryRunKeepsInv(s, steps[..last], u);
      StepKeepsInv(u, steps[last]);
    }
  }

  /** THEOREM. However clients and threads connect, call and disconnect: every response a thread has
    * read was the daemon's answer to the very command that thread put. */
  lemma OwnResponse(s: State, steps: seq<Step>, s': State, k: nat)
    requires Initial(s) && Reaches(s, steps, s') && k < |s'.log|
    ensures s'.log[k].asked == s'.log[k].answered
  {
    EveryRunKeepsInv(s, steps, s');
  }

  /** THEOREM. A process never has more than one command outstanding, in the FIFO or answered; the
    * daemon serves every command and sends each call's answer to the process it came from. */
  lemma OneOutstanding(s: State, steps: seq<Step>, s': State, p: nat)
    requires Initial(s) && Reaches(s, steps, s') && p < |s'.procs|
    ensures |Pending(s'.commands, p)| + |s'.procs[p].fifo| <= 1
    ensures s'.commands != [] ==> CanServe(s')
    ensures s'.commands != [] && s'.commands[0].request.Call? ==>
      s'.slots[s'.commands[0].request.slot] == Some(s'.commands[0].proc)
  {
    EveryRunKeepsInv(s, steps, s');
    assert ProcOk(s', p);
    if s'.commands != [] {
      HeadServable(s');
    }
  }

  /** THEOREM. No client slot is shared: connected processes have different slots, each below 32. */
  lemma SlotsNotShared(s: State, steps: seq<Step>, s': State, p: nat, q: nat)
    requires Initial(s) && Reaches(s, steps, s') && p < |s'.procs| && q < |s'.procs|
    requires s'.procs[p].conn.Connected? && s'.procs[q].conn.Connected?
    ensures s'.procs[p].conn.slot < 32
    ensures s'.procs[p].conn.slot == s'.procs[q].conn.slot ==> p == q
  {
    EveryRunKeepsInv(s, steps, s');
    assert ConnOk(s', p) && ConnOk(s', q);
  }

  /** THEOREM. A connect is denied exactly when all 32 slots are owned; otherwise it gets a slot nobody
    * owned. */
  lemma DeniedOnlyWhenFull(s: State, steps: seq<Step>, s': State)
    requires Initial(s) && Reaches(s, steps, s')
    requires s'.commands != [] && s'.commands[0].request.Connect?
    ensures Can(s', Serve) && |s'.slots| == 32
    ensures var p := s'.commands[0].proc;
      var u := Apply(s', Serve);
      && p < |u.procs| && |u.procs[p].fifo| == 1
      && (u.procs[p].fifo[0].slot.None? <==> forall k :: 0 <= k < 32 ==> s'.slots[k].Some?)
      && (u.procs[p].fifo[0].slot.Some? ==>
           !(exists q: nat :: Owns(s', q, u.procs[p].fifo[0].slot.value)) && Owns(u, p, u.procs[p].fifo[0].slot.value))
  {
    EveryRunKeepsInv(s, steps, s');
    HeadServable(s');
    HeadOfFifo(s');
  }

  function IsPut(): Step -> bool {
    (a: Step) => a.PutConnect? || a.PutCall? || a.PutDisconnect?
  }

  /** The commands that are answered. */
  function IsAsk(): Step -> bool {
    (a: Step) => a.PutConnect? || a.PutCall?
  }

  function IsServe(): Step -> bool {
    (a: Step) => a.Serve?
  }

  function IsGet(): Step -> bool {
    (a: Step) => a.GetResponse?
  }

  function IsWaiting(): Thread -> bool {
    (x: Thread) => x.pc.Waiting?
  }

  /** Every command is numbered, written at the end, and served at the front. */
  predicate Numbered(s: State) {
    |s.commands| <= s.next &&
    forall i :: 0 <= i < |s.commands| ==> s.commands[i].serial == s.next - |s.commands| + i
  }

  lemma NumberedStep(s: State, a: Step)
    requires Numbered(s) && Can(s, a)
    ensures Numbered(Apply(s, a))
    ensures Apply(s, a).next == s.next + One(IsPut()(a))
    ensures |Apply(s, a).commands| + One(IsServe()(a)) == |s.commands| + One(IsPut()(a))
  {
  }

  lemma LoggedStep(s: State, a: Step)
    requires Can(s, a)
    ensures |Apply(s, a).log| + Count(Apply(s, a).threads, IsWaiting()) ==
      |s.log| + Count(s.threads, IsWaiting()) + One(IsAsk()(a))
    ensures |Apply(s, a).log| == |s.log| + One(IsGet()(a)) && Apply(s, a).log[..|s.log|] == s.log
  {
    if a.PutConnect? || a.PutCall? || a.GetResponse? {
      CountUpdate(s.threads, a.t, Apply(s, a).threads[a.t], IsWaiting());
    }
  }

  /** THEOREM. The daemon serves the commands in the order in which they were written, each once: after any
    * run those in the FIFO are the last ones written, in order, and written ones less served ones in
    * number. Every connect and call ends in one exchange, when its response is read, or is still waited
    * for. */
  lemma {:induction false} ServedInOrder(s: State, steps: seq<Step>, s': State)
    requires Initial(s) && Reaches(s, steps, s')
    ensures s'.next == s.next + Count(steps, IsPut())
    ensures |s'.commands| + Count(steps, IsServe()) == Count(steps, IsPut())
    ensures forall i :: 0 <= i < |s'.commands| ==> s'.commands[i].serial == s'.next - |s'.commands| + i
    ensures |s'.log| + Count(s'.threads, IsWaiting()) == Count(steps, IsAsk()) && |s'.log| == Count(steps, IsGet())
    decreases |steps|
  {
    if steps == [] {
      CountNone(s.threads, IsWaiting());
    } else {
      var last := |steps| - 1;
      var u :| Reaches(s, steps[..last], u) && Can(u, steps[last]) && s' == Apply(u, steps[last]);
      ServedInOrder(s, steps[..last], u);
      CountLast(steps, IsPut());
      CountLast(steps, IsServe());
      CountLast(steps, IsAsk());
      CountLast(steps, IsGet());
      NumberedStep(u, steps[last]);
      LoggedStep(u, steps[last]);
    }
  }

  /** THEOREM. A process that has disconnected sees its connection closed exactly when the daemon has served
    * the disconnect; then no slot is its own any more and it may connect again. */
  lemma ClosedOnceServed(s: State, steps: seq<Step>, s': State, p: nat)
    requires Initial(s) && Reaches(s, steps, s') && p < |s'.procs| && s'.procs[p].conn.Disconnecting?
    ensures Can(s', SeeClosed(p)) <==> Pending(s'.commands, p) == []
    ensures Can(s', SeeClosed(p)) ==>
      var u := Apply(s', SeeClosed(p));
      && |u.procs| == |s'.procs| && u.procs[p] == Process(NotConnected, None, [])
      && (forall k: nat :: !Owns(u, p, k))
  {
    EveryRunKeepsInv(s, steps, s');
    var k := s'.procs[p].conn.slot;
    assert ProcOk(s', p);
    if k < |s'.slots| {
      assert SlotOk(s', k);
    }
    if Can(s', SeeClosed(p)) {
      OwnsNone(s', p);
      var u := Apply(s', SeeClosed(p));
      assert u.procs[p] == Process(NotConnected, None, []);
      assert forall j: nat :: Owns(u, p, j) ==> Owns(s', p, j);
    }
  }

  lemma OwnsNone(s: State, p: nat)
    requires Inv(s) && Can(s, SeeClosed(p))
    ensures forall k: nat :: !Owns(s, p, k)
  {
    forall k: nat | k < |s.slots| ensures s.slots[k] != Some(p) {
      assert SlotOk(s, k);
    }
  }

  /** THEOREM. No waiting thread is forgotten: its answer is there to read, or its command is still in
    * the FIFO, which the daemon can go on serving. */
  lemma WaitersAreServed(s: State, steps: seq<Step>, s': State, t: nat)
    requires Initial(s) && Reaches(s, steps, s') && t < |s'.threads| && s'.threads[t].pc.Waiting?
    ensures Can(s', GetResponse(t)) || (s'.threads[t].pc.cmd in s'.commands && Can(s', Serve))
  {
    EveryRunKeepsInv(s, steps, s');
    var p := s'.threads[t].proc;
    assert ProcOk(s', p);
    if s'.procs[p].fifo == [] {
      PendingIn(s'.commands, p, s'.threads[t].pc.cmd);
      HeadServable(s');
    }
  }

  lemma {:induction false} PendingIn(commands: seq<Command>, p: nat, c: Command)
    requires c in Pending(commands, p)
    ensures c in commands
  {
    if commands != [] && c != commands[0] {
      PendingIn(commands[1..], p, c);
    }
  }
}

/** The daemon's table of client slots as it is scanned and written in place. */
module LadSlots {
  import opened Counting
  import LP = LadProtocol

  class ClientTable {
    /** The process connected at each slot. */
    const owner: array<Option<nat>>

    constructor ()
      ensures fresh(owner) && owner[..] == seq(LP.MAXNUMCLIENTS, _ => None)
    {
      owner := new Option<nat>[LP.MAXNUMCLIENTS](_ => None);
      new;
      assert owner[..] == seq(LP.MAXNUMCLIENTS, _ => None);
    }

    /** assignClientId: the first slot nobody is connected at. */
    method AssignClientId() returns (k: nat)
      ensures k == LP.FreeSlot(owner[..])
    {
      k := 0;
      while k < owner.Length
        invariant k <= owner.Length && forall j :: 0 <= j < k ==> owner[j].Some?
      {
        if owner[k] == None {
          break;
        }
        k := k + 1;
      }
      assert LP.FreeSlot(owner[..]) >= k ==> LP.FreeSlot(owner[..]) == k;
    }

    /** The outcome of a connect: the slot now owned, or none when all are. */
    method Connect(p: nat) returns (slot: Option<nat>)
      modifies owner
      ensures slot.None? <==> forall k :: 0 <= k < owner.Length ==> old(owner[k]).Some?
      ensures slot.None? ==> owner[..] == old(owner[..])
      ensures slot.Some? ==> slot.value == LP.FreeSlot(old(owner[..])) < owner.Length
      ensures slot.Some? ==> owner[..] == old(owner[..])[slot.value := Some(p)]
    {
      var k := AssignClientId();
      if k == owner.Length {
        return None;
      }
      owner[k] := Some(p);
      slot := Some(k);
    }

    /** doDisconnect */
    method Disconnect(k: nat)
      requires k < owner.Length
      modifies owner
      ensures owner[..] == old(owner[..])[k := None]
    {
      owner[k] := None;
    }
  }
}
