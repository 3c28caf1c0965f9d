/** The daemon's connection to one remote processor: a reference count, a sending and a receiving
  * socket, and which descriptors are open. */
module NameServerComm {

  const INVALIDSOCKET: int := -1

  /** open: the descriptors of this connection that have been opened and not closed. */
  datatype Comm = Comm(refCount: int, sendSock: int, recvSock: int, open: set<int>)

  /** What the operating system answers to one attempt to connect: two descriptors, negative when the
    * socket call fails, and whether connecting and binding succeed. */
  datatype Attempt = Attempt(fd1: int, connected: bool, fd2: int, bound: bool)

  predicate Succeeds(e: Attempt) {
    e.fd1 >= 0 && e.connected && e.fd2 >= 0 && e.bound
  }

  /** New descriptors are not open yet. */
  predicate NewFds(c: Comm, e: Attempt) {
    e.fd1 !in c.open && e.fd2 !in c.open && (e.fd1 >= 0 ==> e.fd1 != e.fd2)
  }

  /** NameServer_attach */
  function Attach(c: Comm, e: Attempt): (Comm, bool) {
    if c.refCount > 0 then (c.(refCount := c.refCount + 1), true)
    else if Succeeds(e) then (Comm(c.refCount + 1, e.fd1, e.fd2, c.open + {e.fd1, e.fd2}), true)
    else (Comm(c.refCount, INVALIDSOCKET, INVALIDSOCKET, c.open - {c.sendSock, c.recvSock}), false)
  }

  /** NameServer_detach */
  function Detach(c: Comm): Comm {
    if c.refCount - 1 > 0 then c.(refCount := c.refCount - 1)
    else Comm(c.refCount - 1, INVALIDSOCKET, INVALIDSOCKET, c.open - {c.sendSock, c.recvSock})
  }

  /** NameServer_reattach, after the listener has lost a socket. */
  function Reattach(c: Comm, e: Attempt): Comm {
    if c.refCount == 0 || !Succeeds(e) then c
    else Comm(c.refCount, e.fd1, e.fd2, c.open - {c.sendSock, c.recvSock} + {e.fd1, e.fd2})
  }

  /** Both sockets are there exactly while somebody is attached, and nothing else is open. */
  predicate Good(c: Comm) {
    if c.refCount == 0 then c.sendSock == c.recvSock == INVALIDSOCKET && c.open == {}
    else c.refCount > 0 && c.sendSock >= 0 && c.recvSock >= 0 && c.sendSock != c.recvSock
         && c.open == {c.sendSock, c.recvSock}
  }

  /** THEOREM. Attaching, detaching somebody and reattaching keep both sockets open exactly while the
    * count is positive and leak no descriptor, also when an attempt fails half way. The sending socket is
    * the first descriptor and the receiving one the second, and they change with the first attach, the
    * last detach and a successful reattach alone. */
  lemma KeepsGood(c: Comm, e: Attempt)
    requires Good(c) && NewFds(c, e)
    ensures var (c', ok) := Attach(c, e);
      && Good(c') && c'.refCount == c.refCount + (if ok then 1 else 0)
      && (ok <==> c.refCount > 0 || (e.fd1 >= 0 && e.connected && e.fd2 >= 0 && e.bound))
      && (c.refCount == 0 && ok ==> c'.sendSock == e.fd1 && c'.recvSock == e.fd2)
      && (c.refCount > 0 ==> c'.sendSock == c.sendSock && c'.recvSock == c.recvSock)
    ensures c.refCount > 0 ==>
      var c' := Detach(c);
      && Good(c') && c'.refCount == c.refCount - 1
      && (c.refCount > 1 ==> c'.sendSock == c.sendSock && c'.recvSock == c.recvSock)
    ensures var c' := Reattach(c, e);
      && Good(c') && c'.refCount == c.refCount
      && if c.refCount > 0 && Succeeds(e) then c'.sendSock == e.fd1 && c'.recvSock == e.fd2 else c' == c
  {
  }

}

/** The connection as the daemon updates it, one system call after the other. */
module NameServerConnection {
  import opened NameServerComm

  class Connection {
    var refCount: int
    var sendSock: int
    var recvSock: int
    var open: set<int>

    ghost function View(): Comm
      reads this
    {
      Comm(refCount, sendSock, recvSock, open)
    }

    constructor ()
      ensures View() == Comm(0, INVALIDSOCKET, INVALIDSOCKET, {}) && Good(View())
    {
      refCount, sendSock, recvSock, open := 0, INVALIDSOCKET, INVALIDSOCKET, {};
    }

    method Close(fd: int)
      modifies `open
      ensures open == old(open) - {fd}
    {
      open := open - {fd};
    }

    /** The way out of a failed attach: whichever sockets were made are closed. */
    method CloseBoth()
      modifies `open, `sendSock, `recvSock
      ensures sendSock == recvSock == INVALIDSOCKET
      ensures open == old(open) - (if old(recvSock) == INVALIDSOCKET then {} else {old(recvSock)})
                                - (if old(sendSock) == INVALIDSOCKET then {} else {old(sendSock)})
    {
      if recvSock != INVALIDSOCKET {
        Close(recvSock);
        recvSock := INVALIDSOCKET;
      }
      if sendSock != INVALIDSOCKET {
        Close(sendSock);
        sendSock := INVALIDSOCKET;
      }
    }

    method Attach(e: Attempt) returns (ok: bool)
      requires Good(View()) && NewFds(View(), e)
      modifies this
      ensures (View(), ok) == NameServerComm.Attach(old(View()), e) && Good(View())
    {
      if refCount > 0 {
        refCount := refCount + 1;
        return true;
      }
      ok := ConnectSockets(e);
      if ok {
        refCount := refCount + 1;
        assert open == old(open) + {e.fd1, e.fd2};
      } else {
        CloseBoth();
        assert open == {} == old(open) - {old(sendSock), old(recvSock)};
      }
    }

    method ConnectSockets(e: Attempt) returns (ok: bool)
      requires sendSock == recvSock == INVALIDSOCKET && open == {}
      requires e.fd1 >= 0 ==> e.fd1 != e.fd2
      modifies `open, `sendSock, `recvSock
      ensures ok == Succeeds(e)
      ensures ok ==> sendSock == e.fd1 && recvSock == e.fd2 && open == {e.fd1, e.fd2}
      ensures open == (if sendSock == INVALIDSOCKET then {} else {sendSock})
                    + (if recvSock == INVALIDSOCKET then {} else {recvSock})
    {
      if e.fd1 < 0 {
        return false;
      }
      sendSock := e.fd1;
      open := open + {e.fd1};
      if !e.connected {
        return false;
      }
      if e.fd2 < 0 {
        return false;
      }
      recvSock := e.fd2;
      open := open + {e.fd2};
      ok := e.bound;
    }

    method Detach()
      modifies this
      ensures View() == NameServerComm.Detach(old(View()))
    {
      refCount := refCount - 1;
      if refCount > 0 {
        return;
      }
      var send, recv := sendSock, recvSock;
      sendSock, recvSock := INVALIDSOCKET, INVALIDSOCKET;
      Close(send);
      Close(recv);
    }

    method Reattach(e: Attempt)
      requires NewFds(View(), e) && sendSock !in {e.fd1, e.fd2} && recvSock !in {e.fd1, e.fd2}
      modifies this
      ensures View() == NameServerComm.Reattach(old(View()), e)
    {
      if refCount == 0 {
        return;
      }
      var send, recv := INVALIDSOCKET, INVALIDSOCKET;
      ghost var was := open;
      var ok := e.fd1 >= 0;
      if ok {
        send := e.fd1;
        open := open + {send};
        ok := e.connected && e.fd2 >= 0;
        if ok {
          recv := e.fd2;
          open := open + {recv};
          ok := e.bound;
        }
      }
      if ok {
        Close(sendSock);
        Close(recvSock);
        sendSock, recvSock := send, recv;
        assert open == was - {old(sendSock), old(recvSock)} + {e.fd1, e.fd2};
      } else {
        if recv >= 0 {
          Close(recv);
        }
        if send >= 0 {
          Close(send);
        }
        assert open == was;
      }
    }
  }
}

/** Ipc_attach and Ipc_detach of one processor by any number of client processes, each with its own
  * count and transport instance, against the daemon's connection. A client's calls are serialised by
  * its own gate; each call into the daemon is one step. */
module AttachCount {
  import opened Counting
  import opened NameServerComm

  /** Between the steps of an attach or detach: the daemon is attached and the transport not; the
    * transport failed; the transport is attached and the count not raised; the count went to zero and
    * the transport is still there; the transport is gone and the daemon still attached. */
  datatype Pc = Idle | NsAttached | RollingBack | Attaching | Unbinding | NsDetaching

  /** attached and inst are the client's count and whether its transport instance is not null. */
  datatype Client = Client(pc: Pc, attached: nat, inst: bool)

  datatype Status = Success | Fail | InvalidState

  /** History: the status each finished call returned. */
  datatype State = State(clients: seq<Client>, comm: Comm, results: seq<Status>)

  datatype Step =
    | AttachStart(c: nat, e: Attempt)
    | AttachTransport(c: nat, ok: bool)
    | RollBack(c: nat)
    | AttachEnd(c: nat)
    | DetachStart(c: nat)
    | DetachTransport(c: nat)
    | DetachDaemon(c: nat)
    | Reconnect(e: Attempt)

  predicate IsClient(s: State, c: nat) { c < |s.clients| }

  predicate Can(s: State, a: Step) {
    match a
    case AttachStart(c, e) => IsClient(s, c) && s.clients[c].pc.Idle? && NewFds(s.comm, e)
    case AttachTransport(c, _) => IsClient(s, c) && s.clients[c].pc.NsAttached?
    case RollBack(c) => IsClient(s, c) && s.clients[c].pc.RollingBack?
    case AttachEnd(c) => IsClient(s, c) && s.clients[c].pc.Attaching?
    case DetachStart(c) => IsClient(s, c) && s.clients[c].pc.Idle?
    case DetachTransport(c) => IsClient(s, c) && s.clients[c].pc.Unbinding?
    case DetachDaemon(c) => IsClient(s, c) && s.clients[c].pc.NsDetaching?
    case Reconnect(e) => NewFds(s.comm, e)
  }

  function Set(s: State, c: nat, x: Client): State
    requires IsClient(s, c)
  {
    s.(clients := s.clients[c := x])
  }

  function Return(s: State, r: Status): State {
    s.(results := s.results + [r])
  }

  function ApplyAttachStart(s: State, c: nat, e: Attempt): State
    requires Can(s, AttachStart(c, e))
  {
    var x := s.clients[c];
    if x.attached > 0 then Return(Set(s, c, x.(attached := x.attached + 1)), Success)
    else
      var (comm, ok) := Attach(s.comm, e);
      var t := s.(comm := comm);
      if ok then Set(t, c, x.(pc := NsAttached)) else Return(t, Fail)
  }

  function ApplyDetachStart(s: State, c: nat): State
    requires Can(s, DetachStart(c))
  {
    var x := s.clients[c];
    if x.attached == 0 then Return(s, InvalidState)
    else if x.attached > 1 then Return(Set(s, c, x.(attached := x.attached - 1)), Success)
    else Set(s, c, x.(attached := 0, pc := Unbinding))
  }

  function Apply(s: State, a: Step): State
    requires Can(s, a)
  {
    match a
    case AttachStart(c, e) => ApplyAttachStart(s, c, e)
    case AttachTransport(c, ok) =>
      Set(s, c, if ok then s.clients[c].(pc := Attaching, inst := true) else s.clients[c].(pc := RollingBack))
    case RollBack(c) => Return(Set(s.(comm := Detach(s.comm)), c, s.clients[c].(pc := Idle)), Fail)
    case AttachEnd(c) =>
      Return(Set(s, c, s.clients[c].(pc := Idle, attached := s.clients[c].attached + 1)), Success)
    case DetachStart(c) => ApplyDetachStart(s, c)
    case DetachTransport(c) =>
      if s.clients[c].inst then Set(s, c, s.clients[c].(pc := NsDetaching, inst := false))
      else Return(Set(s, c, s.clients[c].(pc := Idle)), Fail)
    case DetachDaemon(c) => Return(Set(s.(comm := Detach(s.comm)), c, s.clients[c].(pc := Idle)), Success)
    case Reconnect(e) => s.(comm := Reattach(s.comm, e))
  }

  predicate Initial(s: State) {
    && s.comm == Comm(0, INVALIDSOCKET, INVALIDSOCKET, {}) && s.results == []
    && forall c :: 0 <= c < |s.clients| ==> s.clients[c] == Client(Idle, 0, false)
  }

  // ---------------------------------------------------------------- invariant

  /** The client counts once in the daemon. */
  predicate Holds(x: Client) {
    x.attached > 0 || !x.pc.Idle?
  }

  function Holding(): Client -> bool {
    (x: Client) => Holds(x)
  }

  /** The transport instance is there exactly while attached, or between its own two steps. */
  predicate ClientOk(x: Client) {
    && (x.pc.Idle? ==> (x.inst <==> x.attached > 0))
    && (!x.pc.Idle? ==> x.attached == 0 && (x.inst <==> x.pc.Attaching? || x.pc.Unbinding?))
  }

  predicate Inv(s: State) {
    && Good(s.comm)
    && s.comm.refCount == Count(s.clients, Holding())
    && (forall c :: 0 <= c < |s.clients| ==> ClientOk(s.clients[c]))
  }

  lemma InitialInv(s: State)
    requires Initial(s)
    ensures Inv(s)
  {
    CountNone(s.clients, Holding());
  }

  lemma AttachStartKeeps(s: State, c: nat, e: Attempt)
    requires Inv(s) && Can(s, AttachStart(c, e))
    ensures Inv(Apply(s, AttachStart(c, e)))
  {
    ClientStep(s, c, Apply(s, AttachStart(c, e)).clients[c]);
    KeepsGood(s.comm, e);
  }

  /** Steps that do not call the daemon, and keep whether the client holds it. */
  lemma ClientOnlyKeeps(s: State, a: Step)
    requires Inv(s) && Can(s, a)
    requires a.AttachTransport? || a.AttachEnd? || a.DetachStart? || a.DetachTransport?
    ensures Inv(Apply(s, a))
  {
    ClientStep(s, a.c, Apply(s, a).clients[a.c]);
  }

  lemma DetachKeeps(s: State, a: Step)
    requires Inv(s) && Can(s, a) && (a.RollBack? || a.DetachDaemon?)
    ensures Inv(Apply(s, a))
  {
    ClientStep(s, a.c, Apply(s, a).clients[a.c]);
    KeepsGood(s.comm, Attempt(-1, false, -1, false));
  }

  lemma StepKeepsInv(s: State, a: Step)
    requires Inv(s) && Can(s, a)
    ensures Inv(Apply(s, a))
  {
    match a
    case Reconnect(e) => KeepsGood(s.comm, e);
    case AttachStart(c, e) => AttachStartKeeps(s, c, e);
    case RollBack(_) => DetachKeeps(s, a);
    case DetachDaemon(_) => DetachKeeps(s, a);
    case _ => ClientOnlyKeeps(s, a);
  }

  lemma ClientStep(s: State, c: nat, x: Client)
    requires Inv(s) && IsClient(s, c)
    ensures Count(s.clients[c := x], Holding()) + One(Holds(s.clients[c])) == Count(s.clients, Holding()) + One(Holds(x))
    ensures Holds(s.clients[c]) ==> s.comm.refCount > 0
    ensures s.clients[c := s.clients[c]] == s.clients
  {
    CountUpdate(s.clients, c, x, Holding());
    if Holds(s.clients[c]) {
      CountHit(s.clients, c, Holding());
    }
  }

  ghost predicate Reaches(s: State, steps: seq<Step>, s': State)
    decreases |steps|
  {
    if steps == [] then s' == s
    else
      var last := |steps| - 1;
      exists u :: Reaches(s, steps[..last], u) && Can(u, steps[last]) && s' == Apply(u, steps[last])
  }

  lemma {:induction false} EveryRunKeepsInv(s: State, steps: seq<Step>, s': State)
    requires Initial(s) && Reaches(s, steps, s')
    ensures Inv(s')
    decreases |steps|
  {
    if steps == [] {
      InitialInv(s);
    } else {
      var last := |steps| - 1;
      var u :| Reaches(s, steps[..last], u) && Can(u, steps[last]) && s' == Apply(u, steps[last]);
      EveryRunKeepsInv(s, steps[..last], u);
      StepKeepsInv(u, steps[last]);
    }
  }

  /** THEOREM. After any run of attaches and detaches by many clients, failed and rolled-back ones
    * included: the daemon's count is the number of clients that are attached or in between, its two
    * sockets are open exactly while that is positive and nothing else is, and with no call in between a
    * client has a transport instance exactly while its own count is positive. */
  lemma CountsAgree(s: State, steps: seq<Step>, s': State)
    requires Initial(s) && Reaches(s, steps, s')
    ensures s'.comm.refCount == Count(s'.clients, Holding())
    ensures Good(s'.comm)
    ensures forall c :: 0 <= c < |s'.clients| && s'.clients[c].pc.Idle? ==>
      (s'.clients[c].inst <==> s'.clients[c].attached > 0)
  {
    EveryRunKeepsInv(s, steps, s');
  }

  /** THEOREM. A detach finds no transport instance only if the client is not attached at all: the
    * failure in the middle of a detach, which would leave the daemon's count too high, cannot occur. */
  lemma DetachNeverFailsHalfWay(s: State, steps: seq<Step>, s': State, c: nat)
    requires Initial(s) && Reaches(s, steps, s') && Can(s', DetachTransport(c))
    ensures s'.clients[c].inst && Apply(s', DetachTransport(c)).results == s'.results
  {
    EveryRunKeepsInv(s, steps, s');
  }

  /** THEOREM. A reconnection of an attached daemon puts the two new sockets in place of the old ones if it
    * succeeds, and else changes nothing, and never a client. */
  lemma ReconnectSwaps(s: State, steps: seq<Step>, s': State, e: Attempt)
    requires Initial(s) && Reaches(s, steps, s') && Can(s', Reconnect(e))
    ensures Apply(s', Reconnect(e)) ==
      if s'.comm.refCount > 0 && e.fd1 >= 0 && e.connected && e.fd2 >= 0 && e.bound
      then s'.(comm := Comm(s'.comm.refCount, e.fd1, e.fd2, {e.fd1, e.fd2}))
      else s'
  {
    EveryRunKeepsInv(s, steps, s');
    assert {s'.comm.sendSock, s'.comm.recvSock} - {s'.comm.sendSock, s'.comm.recvSock} == {};
  }

  // ---------------------------------------------------------------- a client's count

  /** What the end of one of client c's calls means for its count: one more for an attach that returned
    * success, one less for a detach that did. */
  function Change(s: State, a: Step, c: nat): int
    requires Can(s, a)
  {
    if a.Reconnect? || a.c != c || Apply(s, a).results != s.results + [Success] then 0
    else if a.DetachStart? || a.DetachTransport? || a.DetachDaemon? then -1
    else 1
  }

  /** A run, and client c's successful attaches less its successful detaches in it. */
  ghost predicate ReachesWith(s: State, steps: seq<Step>, s': State, c: nat, n: int)
    decreases |steps|
  {
    if steps == [] then s' == s && n == 0
    else
      var last := |steps| - 1;
      exists u, m :: ReachesWith(s, steps[..last], u, c, m) && Can(u, steps[last])
        && s' == Apply(u, steps[last]) && n == m + Change(u, steps[last], c)
  }

  lemma {:induction false} EveryRunHasBalance(s: State, steps: seq<Step>, s': State, c: nat) returns (n: int)
    requires Reaches(s, steps, s')
    ensures ReachesWith(s, steps, s', c, n)
    decreases |steps|
  {
    if steps == [] {
      n := 0;
    } else {
      var last := |steps| - 1;
      var u :| Reaches(s, steps[..last], u) && Can(u, steps[last]) && s' == Apply(u, steps[last]);
      var m := EveryRunHasBalance(s, steps[..last], u, c);
      n := m + Change(u, steps[last], c);
    }
  }

  /** The count, with 1 for a detach that has taken it to 0 and not returned. */
  function Owed(x: Client): nat {
    x.attached + One(x.pc.Unbinding? || x.pc.NsDetaching?)
  }

  lemma ChangeIsOwed(s: State, a: Step, c: nat)
    requires Inv(s) && Can(s, a) && IsClient(s, c)
    ensures IsClient(Apply(s, a), c)
    ensures Owed(Apply(s, a).clients[c]) == Owed(s.clients[c]) + Change(s, a, c)
  {
    var r := Apply(s, a).results;
    assert |r| <= |s.results| + 1;
    assert |r| == |s.results| + 1 ==> r[|s.results|] == Success || r != s.results + [Success];
  }

  lemma {:induction false} BalanceKept(s: State, steps: seq<Step>, s': State, c: nat, n: int)
    requires Initial(s) && ReachesWith(s, steps, s', c, n) && IsClient(s, c)
    ensures Inv(s') && IsClient(s', c) && Owed(s'.clients[c]) == n
    decreases |steps|
  {
    if steps == [] {
      InitialInv(s);
    } else {
      var last := |steps| - 1;
      var u, m :| ReachesWith(s, steps[..last], u, c, m) && Can(u, steps[last])
        && s' == Apply(u, steps[last]) && n == m + Change(u, steps[last], c);
      BalanceKept(s, steps[..last], u, c, m);
      StepKeepsInv(u, steps[last]);
      ChangeIsOwed(u, steps[last], c);
    }
  }

  /** THEOREM. Between its calls, a client's count is the number of its attaches that returned success
    * less that of its detaches that did, whatever the other clients do. */
  lemma CountIsBalance(s: State, steps: seq<Step>, s': State, c: nat, n: int)
    requires Initial(s) && ReachesWith(s, steps, s', c, n) && IsClient(s, c)
    ensures IsClient(s', c) && (s'.clients[c].pc.Idle? ==> s'.clients[c].attached == n)
  {
    BalanceKept(s, steps, s', c, n);
  }

  // ---------------------------------------------------------------- whole calls

  /** A whole Ipc_attach with nothing in between: the client's count and transport, the daemon's
    * connection and the status. */
  function AttachCall(attached: nat, inst: bool, comm: Comm, e: Attempt, transport: bool): (nat, bool, Comm, Status) {
    if attached > 0 then (attached + 1, inst, comm, Success)
    else
      var (comm1, ok) := Attach(comm, e);
      if !ok then (attached, inst, comm1, Fail)
      else if !transport then (attached, inst, Detach(comm1), Fail)
      else (attached + 1, true, comm1, Success)
  }

  function DetachCall(attached: nat, inst: bool, comm: Comm): (nat, bool, Comm, Status) {
    if attached == 0 then (attached, inst, comm, InvalidState)
    else if attached > 1 then ((attached - 1) as nat, inst, comm, Success)
    else if !inst then (0, inst, comm, Fail)
    else (0, false, Detach(comm), Success)
  }

  /** THEOREM. An attach succeeds exactly when the client is attached already, or the daemon is or becomes
    * connected and the transport attaches; it raises the client's count by one if so, and the daemon's
    * with the first. A detach fails exactly when the client is not attached, and undoes that. */
  lemma CallsAnswer(attached: nat, comm: Comm, e: Attempt, transport: bool)
    requires Good(comm) && NewFds(comm, e)
    ensures var inst := attached > 0;
      var (attached1, inst1, comm1, status) := AttachCall(attached, inst, comm, e, transport);
      && status == (if attached > 0 || ((comm.refCount > 0 || Succeeds(e)) && transport) then Success else Fail)
      && attached1 == attached + One(status == Success) && (inst1 <==> attached1 > 0)
      && Good(comm1) && comm1.refCount == comm.refCount + One(attached == 0 && status == Success)
    ensures attached > 0 ==> comm.refCount > 0 ==>
      var (attached1, inst1, comm1, status) := DetachCall(attached, true, comm);
      && status == Success && attached1 == attached - 1 && (inst1 <==> attached1 > 0)
      && Good(comm1) && comm1.refCount == comm.refCount - One(attached == 1)
    ensures DetachCall(0, false, comm) == (0, false, comm, InvalidState)
  {
    KeepsGood(comm, e);
    var (comm1, ok) := Attach(comm, e);
    if ok {
      KeepsGood(comm1, Attempt(-1, false, -1, false));
    }
  }

  /** The steps of client c's attach, one after the other. */
  function AttachSteps(s: State, c: nat, e: Attempt, transport: bool): State
    requires Can(s, AttachStart(c, e))
  {
    var t := Apply(s, AttachStart(c, e));
    if t.clients[c].pc.Idle? then t
    else
      var u := Apply(t, AttachTransport(c, transport));
      if transport then Apply(u, AttachEnd(c)) else Apply(u, RollBack(c))
  }

  function DetachSteps(s: State, c: nat): State
    requires Can(s, DetachStart(c))
  {
    var t := Apply(s, DetachStart(c));
    if t.clients[c].pc.Idle? then t
    else
      var u := Apply(t, DetachTransport(c));
      if u.clients[c].pc.Idle? then u else Apply(u, DetachDaemon(c))
  }

  /** THEOREM. The steps of one client, when nothing comes between them, are its whole call. */
  lemma StepsMakeCalls(s: State, c: nat, e: Attempt, transport: bool)
    requires Can(s, AttachStart(c, e))
    ensures var x := s.clients[c];
      var (attached, inst, comm, status) := AttachCall(x.attached, x.inst, s.comm, e, transport);
      AttachSteps(s, c, e, transport) ==
      State(s.clients[c := Client(Idle, attached, inst)], comm, s.results + [status])
    ensures var x := s.clients[c];
      var (attached, inst, comm, status) := DetachCall(x.attached, x.inst, s.comm);
      DetachSteps(s, c) == State(s.clients[c := Client(Idle, attached, inst)], comm, s.results + [status])
  {
    assert s.clients[c := s.clients[c]] == s.clients;
  }
}

/** The attach count of one client as Ipc_attach and Ipc_detach update it, with their calls into the
  * daemon's connection. */
module IpcClient {
  import opened NameServerComm
  import opened AttachCount
  import NSC = NameServerConnection

  class IpcModule {
    var attached: nat
    var inst: bool
    const nameServer: NSC.Connection

    constructor (nameServer: NSC.Connection)
      ensures attached == 0 && !inst && this.nameServer == nameServer
    {
      attached, inst := 0, false;
      this.nameServer := nameServer;
    }

    /** transport says whether the transport attaches. */
    method Attach(e: Attempt, transport: bool) returns (status: Status)
      requires Good(nameServer.View()) && NewFds(nameServer.View(), e)
      modifies this, nameServer
      ensures (attached, inst, nameServer.View(), status)
              == AttachCall(old(attached), old(inst), old(nameServer.View()), e, transport)
    {
      if attached > 0 {
        attached := attached + 1;
        return Success;
      }
      var ok := nameServer.Attach(e);
      if !ok {
        return Fail;
      }
      if !transport {
        nameServer.Detach();
        return Fail;
      }
      inst := true;
      attached := attached + 1;
      status := Success;
    }

    method Detach() returns (status: Status)
      modifies this, nameServer
      ensures (attached, inst, nameServer.View(), status)
              == DetachCall(old(attached), old(inst), old(nameServer.View()))
    {
      if attached == 0 {
        return InvalidState;
      }
      attached := attached - 1;
      if attached > 0 {
        return Success;
      }
      if !inst {
        return Fail;
      }
      inst := false;
      nameServer.Detach();
      status := Success;
    }
  }
}
