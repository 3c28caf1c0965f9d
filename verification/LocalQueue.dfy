/** A message queue inside one process: a list under a gate, a counting semaphore beside it, and a flag
  * that an unblock or a shutdown sets before it posts, used by any number of threads. */
module LocalQueue {
  import opened Counting

  /** Messages by identity. */
  type Msg = nat

  datatype Flag = Clear | Unblocked | Shutdown

  /** Where a thread is: outside, between the insertion and the post of a put, between setting the flag
    * and the post, past the wait of a get, past its look at the flag. */
  datatype Thread = Outside | Inserted | Flagged | Woken | Cleared

  datatype Result = Message(msg: Msg) | Status(flag: Flag) | TimedOut

  /** History: inserted and delivered are the messages in the order they went in and out, results what
    * the gets have returned. */
  datatype State = State(
    list: seq<Msg>, sem: nat, flag: Flag, threads: seq<Thread>,
    inserted: seq<Msg>, delivered: seq<Msg>, results: seq<Result>)

  datatype Step =
    | Insert(t: nat, msg: Msg) | Raise(t: nat, flag: Flag) | Post(t: nat)
    | Wait(t: nat) | GiveUp(t: nat) | Look(t: nat) | Dequeue(t: nat)

  predicate Can(s: State, a: Step) {
    a.t < |s.threads| &&
    match a
    case Insert(t, _) => s.threads[t].Outside?
    case Raise(t, flag) => s.threads[t].Outside? && !flag.Clear?
    case Post(t) => s.threads[t].Inserted? || s.threads[t].Flagged?
    case Wait(t) => s.threads[t].Outside? && s.sem > 0
    case GiveUp(t) => s.threads[t].Outside?
    case Look(t) => s.threads[t].Woken?
    case Dequeue(t) => s.threads[t].Cleared?
  }

  function Move(s: State, t: nat, pc: Thread): State
    requires t < |s.threads|
  {
    s.(threads := s.threads[t := pc])
  }

  /** A get that dequeues from an empty list has no successor. */
  predicate Safe(s: State, a: Step) {
    a.Dequeue? ==> s.list != []
  }

  function Apply(s: State, a: Step): State
    requires Can(s, a) && Safe(s, a)
  {
    match a
    case Insert(t, msg) => Move(s.(list := s.list + [msg], inserted := s.inserted + [msg]), t, Inserted)
    case Raise(t, flag) => Move(s.(flag := flag), t, Flagged)
    case Post(t) => Move(s.(sem := s.sem + 1), t, Outside)
    case Wait(t) => Move(s.(sem := s.sem - 1), t, Woken)
    case GiveUp(t) => s.(results := s.results + [TimedOut])
    case Look(t) =>
      if s.flag.Clear? then Move(s, t, Cleared)
      else Move(s.(results := s.results + [Status(s.flag)]), t, Outside)
    case Dequeue(t) =>
      Move(s.(list := s.list[1..], delivered := s.delivered + [s.list[0]],
              results := s.results + [Message(s.list[0])]), t, Outside)
  }

  predicate Initial(s: State) {
    && s.list == [] && s.sem == 0 && s.flag.Clear? && s.inserted == [] && s.delivered == [] && s.results == []
    && forall t :: 0 <= t < |s.threads| ==> s.threads[t].Outside?
  }

  // ---------------------------------------------------------------- invariant

  function At(pc: Thread): Thread -> bool {
    (x: Thread) => x == pc
  }

  function Number(s: State, pc: Thread): nat {
    Count(s.threads, At(pc))
  }

  lemma NumberMoves(s: State, t: nat, pc: Thread, x: Thread)
    requires t < |s.threads|
    ensures Number(Move(s, t, pc), x) + One(s.threads[t] == x) == Number(s, x) + One(pc == x)
  {
    CountUpdate(s.threads, t, pc, At(x));
  }

  /** While the flag is clear every message in the list has its post: still to come, in the semaphore, or
    * held by a get. Once the flag is set, the gets that have seen it clear still have theirs. */
  predicate TokenInv(s: State) {
    if s.flag.Clear?
    then |s.list| == s.sem + Number(s, Inserted) + Number(s, Woken) + Number(s, Cleared) && Number(s, Flagged) == 0
    else |s.list| >= Number(s, Cleared)
  }

  function Messages(results: seq<Result>): seq<Msg> {
    if results == [] then []
    else
      var last := results[|results| - 1];
      Messages(results[..|results| - 1]) + (if last.Message? then [last.msg] else [])
  }

  predicate OrderInv(s: State) {
    s.delivered + s.list == s.inserted && Messages(s.results) == s.delivered
  }

  ghost predicate Inv(s: State) {
    TokenInv(s) && OrderInv(s)
  }

  lemma InitialInv(s: State)
    requires Initial(s)
    ensures Inv(s)
  {
    CountNone(s.threads, At(Inserted));
    CountNone(s.threads, At(Flagged));
    CountNone(s.threads, At(Woken));
    CountNone(s.threads, At(Cleared));
  }

  /** THEOREM. A get that is about to dequeue finds a message. */
  lemma DequeueFindsMessage(s: State, a: Step)
    requires TokenInv(s) && Can(s, a)
    ensures Safe(s, a)
  {
    if a.Dequeue? {
      CountHit(s.threads, a.t, At(Cleared));
    }
  }

  lemma TokensKept(s: State, a: Step)
    requires TokenInv(s) && Can(s, a) && Safe(s, a)
    ensures TokenInv(Apply(s, a))
  {
    var s' := Apply(s, a);
    var pc := s'.threads[a.t];
    assert s'.threads == s.threads[a.t := pc];
    NumberMoves(s, a.t, pc, Inserted);
    NumberMoves(s, a.t, pc, Flagged);
    NumberMoves(s, a.t, pc, Woken);
    NumberMoves(s, a.t, pc, Cleared);
    if s.threads[a.t].Flagged? {
      CountHit(s.threads, a.t, At(Flagged));
    }
  }

  /** One more result. */
  lemma MessagesThen(results: seq<Result>, r: Result)
    ensures Messages(results + [r]) == Messages(results) + (if r.Message? then [r.msg] else [])
  {
    assert (results + [r])[..|results|] == results;
  }

  lemma InsertKeepsOrder(delivered: seq<Msg>, list: seq<Msg>, inserted: seq<Msg>, msg: Msg)
    requires delivered + list == inserted
    ensures delivered + (list + [msg]) == inserted + [msg]
  {
    assert delivered + (list + [msg]) == (delivered + list) + [msg];
  }

  lemma DequeueKeepsOrder(delivered: seq<Msg>, list: seq<Msg>)
    requires list != []
    ensures (delivered + [list[0]]) + list[1..] == delivered + list
  {
  }

  lemma OrderKept(s: State, a: Step)
    requires OrderInv(s) && Can(s, a) && Safe(s, a)
    ensures OrderInv(Apply(s, a))
  {
    match a
    case Insert(_, msg) => InsertKeepsOrder(s.delivered, s.list, s.inserted, msg);
    case Dequeue(_) =>
      DequeueKeepsOrder(s.delivered, s.list);
      MessagesThen(s.results, Message(s.list[0]));
    case GiveUp(_) => MessagesThen(s.results, TimedOut);
    case Look(_) => MessagesThen(s.results, Status(s.flag));
    case _ =>
  }

  lemma StepKeepsInv(s: State, a: Step)
    requires Inv(s) && Can(s, a)
    ensures Safe(s, a) && Inv(Apply(s, a))
  {
    DequeueFindsMessage(s, a);
    TokensKept(s, a);
    OrderKept(s, a);
  }

  // ---------------------------------------------------------------- theorems

  ghost predicate Reaches(s: State, steps: seq<Step>, s': State)
    decreases |steps|
  {
    if steps == [] then s' == s
    else
      var last := |steps| - 1;
      exists u :: Reaches(s, steps[..last], u) && Can(u, steps[last]) && Safe(u, steps[last])
        && s' == Apply(u, steps[last])
  }

  lemma {:induction false} EveryRunKeepsInv(s: State, steps: seq<Step>, s': State)
    requires Initial(s) && Reaches(s, steps, s')
    ensures Inv(s') && |s'.threads| == |s.threads|
    decreases |steps|
  {
    if steps == [] {
      InitialInv(s);
    } else {
      var last := |steps| - 1;
      var u :| Reaches(s, steps[..last], u) && Can(u, steps[last]) && Safe(u, steps[last])
        && s' == Apply(u, steps[last]);
      EveryRunKeepsInv(s, steps[..last], u);
      StepKeepsInv(u, steps[last]);
    }
  }

  /** THEOREM. Whatever puts, gets, timeouts, unblocks and shutdowns of any threads do: no get ever
    * dequeues from an empty list. */
  lemma NeverFromEmpty(s: State, steps: seq<Step>, s': State, a: Step)
    requires Initial(s) && Reaches(s, steps, s') && Can(s', a)
    ensures Safe(s', a)
  {
    EveryRunKeepsInv(s, steps, s');
    DequeueFindsMessage(s', a);
  }

  /** THEOREM. The messages that gets have returned, followed by those in the list, are the messages
    * inserted, each once and in the order of insertion. */
  lemma {:induction false} DeliveredInOrder(s: State, steps: seq<Step>, s': State)
    requires Initial(s) && Reaches(s, steps, s')
    ensures Messages(s'.results) + s'.list == s'.inserted
  {
    EveryRunKeepsInv(s, steps, s');
  }

  /** THEOREM. No message is left without a wake-up: while the flag is clear and no put or get is half
    * done, the semaphore counts exactly the messages in the list. */
  lemma NoLostWakeup(s: State, steps: seq<Step>, s': State)
    requires Initial(s) && Reaches(s, steps, s') && s'.flag.Clear?
    requires forall t :: 0 <= t < |s'.threads| ==> s'.threads[t].Outside?
    ensures s'.sem == |s'.list|
  {
    EveryRunKeepsInv(s, steps, s');
    CountNone(s'.threads, At(Inserted));
    CountNone(s'.threads, At(Woken));
    CountNone(s'.threads, At(Cleared));
  }

  lemma FlaggedStep(s: State, a: Step)
    requires !s.flag.Clear? && Can(s, a) && Safe(s, a)
    ensures !Apply(s, a).flag.Clear?
    ensures |Apply(s, a).delivered| + Number(Apply(s, a), Cleared) == |s.delivered| + Number(s, Cleared)
  {
    var s' := Apply(s, a);
    var pc := s'.threads[a.t];
    assert s'.threads == s.threads[a.t := pc];
    NumberMoves(s, a.t, pc, Cleared);
  }

  /** THEOREM. From the moment the flag is set, the only messages still delivered go to the gets that
    * had already seen it clear, one each; every other get that wakes up returns the flag. */
  lemma {:induction false} FlagStopsDelivery(s: State, steps: seq<Step>, s': State)
    requires !s.flag.Clear? && Reaches(s, steps, s')
    ensures !s'.flag.Clear?
    ensures |s'.delivered| + Number(s', Cleared) == |s.delivered| + Number(s, Cleared)
    decreases |steps|
  {
    if steps != [] {
      var last := |steps| - 1;
      var u :| Reaches(s, steps[..last], u) && Can(u, steps[last]) && Safe(u, steps[last])
        && s' == Apply(u, steps[last]);
      FlagStopsDelivery(s, steps[..last], u);
      FlaggedStep(u, steps[last]);
    }
  }

  function IsInsert(): Step -> bool {
    (a: Step) => a.Insert?
  }

  function IsRaise(): Step -> bool {
    (a: Step) => a.Raise?
  }

  function IsPost(): Step -> bool {
    (a: Step) => a.Post?
  }

  function IsWait(): Step -> bool {
    (a: Step) => a.Wait?
  }

  function IsGiveUp(): Step -> bool {
    (a: Step) => a.GiveUp?
  }

  lemma TokenStep(s: State, a: Step)
    requires Can(s, a) && Safe(s, a)
    ensures var s' := Apply(s, a);
      && s'.sem + One(a.Wait?) == s.sem + One(a.Post?)
      && Number(s', Inserted) + Number(s', Flagged) + One(a.Post?) ==
         Number(s, Inserted) + Number(s, Flagged) + One(a.Insert?) + One(a.Raise?)
      && Number(s', Woken) + Number(s', Cleared) + |s'.results| ==
         Number(s, Woken) + Number(s, Cleared) + |s.results| + One(a.Wait?) + One(a.GiveUp?)
  {
    var s' := Apply(s, a);
    var pc := s'.threads[a.t];
    assert s'.threads == s.threads[a.t := pc];
    NumberMoves(s, a.t, pc, Inserted);
    NumberMoves(s, a.t, pc, Flagged);
    NumberMoves(s, a.t, pc, Woken);
    NumberMoves(s, a.t, pc, Cleared);
  }

  /** THEOREM. Nothing posted is lost, whatever the flag: the semaphore is what was posted less what gets
    * took; every insertion and every raised flag has had its one post or has it still to come; and every
    * get that took one has returned one result or is on its way to. */
  lemma {:induction false} SemaphoreLaw(s: State, steps: seq<Step>, s': State)
    requires Initial(s) && Reaches(s, steps, s')
    ensures s'.sem + Count(steps, IsWait()) == Count(steps, IsPost())
    ensures Count(steps, IsPost()) + Number(s', Inserted) + Number(s', Flagged) ==
      Count(steps, IsInsert()) + Count(steps, IsRaise())
    ensures Count(steps, IsWait()) + Count(steps, IsGiveUp()) ==
      Number(s', Woken) + Number(s', Cleared) + |s'.results|
    decreases |steps|
  {
    if steps == [] {
      CountNone(s.threads, At(Inserted));
      CountNone(s.threads, At(Flagged));
      CountNone(s.threads, At(Woken));
      CountNone(s.threads, At(Cleared));
    } else {
      var last := |steps| - 1;
      var u :| Reaches(s, steps[..last], u) && Can(u, steps[last]) && Safe(u, steps[last])
        && s' == Apply(u, steps[last]);
      SemaphoreLaw(s, steps[..last], u);
      CountLast(steps, IsInsert());
      CountLast(steps, IsRaise());
      CountLast(steps, IsPost());
      CountLast(steps, IsWait());
      CountLast(steps, IsGiveUp());
      TokenStep(u, steps[last]);
    }
  }

  /** The flag as the last unblock or shutdown of the run set it. */
  function LastRaised(steps: seq<Step>): Flag {
    if steps == [] then Clear
    else
      var last := |steps| - 1;
      if steps[last].Raise? then steps[last].flag else LastRaised(steps[..last])
  }

  lemma {:induction false} FlagIsLastRaised(s: State, steps: seq<Step>, s': State)
    requires Initial(s) && Reaches(s, steps, s')
    ensures s'.flag == LastRaised(steps)
    decreases |steps|
  {
    if steps != [] {
      var last := |steps| - 1;
      var u :| Reaches(s, steps[..last], u) && Can(u, steps[last]) && Safe(u, steps[last])
        && s' == Apply(u, steps[last]);
      FlagIsLastRaised(s, steps[..last], u);
    }
  }

  /** THEOREM. What a get returns after any run: past its wait, the flag that the last unblock or shutdown
    * set, and the list is left alone, or when there was none, the oldest inserted message no get has
    * returned; a get that gives up returns a timeout and changes nothing. No other step returns from a
    * get. */
  lemma GetReturns(s: State, steps: seq<Step>, s': State, a: Step)
    requires Initial(s) && Reaches(s, steps, s') && Can(s', a)
    ensures Safe(s', a)
    ensures a.Look? && LastRaised(steps) != Clear ==>
      Apply(s', a) == s'.(results := s'.results + [Status(LastRaised(steps))], threads := s'.threads[a.t := Outside])
    ensures a.Look? && LastRaised(steps) == Clear ==> Apply(s', a) == s'.(threads := s'.threads[a.t := Cleared])
    ensures a.Dequeue? ==>
      && |s'.delivered| < |s'.inserted|
      && Apply(s', a).results == s'.results + [Message(s'.inserted[|s'.delivered|])]
    ensures a.GiveUp? ==> Apply(s', a) == s'.(results := s'.results + [TimedOut])
    ensures !a.Look? && !a.Dequeue? && !a.GiveUp? ==> Apply(s', a).results == s'.results
  {
    EveryRunKeepsInv(s, steps, s');
    DequeueFindsMessage(s', a);
    FlagIsLastRaised(s, steps, s');
    if a.Dequeue? {
      assert s'.inserted[|s'.delivered|] == s'.list[0];
    }
  }

  // ---------------------------------------------------------------- the queue object

  /** What the steps change besides the thread: the fields of the queue object. */
  datatype Object = Object(list: seq<Msg>, sem: nat, flag: Flag)

  function ObjectOf(s: State): Object {
    Object(s.list, s.sem, s.flag)
  }

  predicate ObjectCan(o: Object, a: Step) {
    (a.Wait? ==> o.sem > 0) && (a.Dequeue? ==> o.list != [])
  }

  function ObjectStep(o: Object, a: Step): Object
    requires ObjectCan(o, a)
  {
    match a
    case Insert(_, msg) => o.(list := o.list + [msg])
    case Raise(_, flag) => o.(flag := flag)
    case Post(_) => o.(sem := o.sem + 1)
    case Wait(_) => o.(sem := o.sem - 1)
    case Dequeue(_) => o.(list := o.list[1..])
    case _ => o
  }

  /** The machine's steps do to the object what the object's methods do. */
  lemma StepsFollowObject(s: State, a: Step)
    requires Can(s, a) && Safe(s, a)
    ensures ObjectCan(ObjectOf(s), a) && ObjectOf(Apply(s, a)) == ObjectStep(ObjectOf(s), a)
  {
  }
}

/** The queue object as its fields are updated in place, one method for each step between two lock or
  * semaphore operations, and the calls made of them when no other thread comes between. */
module LocalQueueObject {
  import opened LocalQueue

  class MessageQObject {
    var msgList: seq<Msg>
    var synchronizer: nat
    var unblocked: Flag

    function View(): Object
      reads this
    {
      Object(msgList, synchronizer, unblocked)
    }

    constructor ()
      ensures View() == Object([], 0, Clear)
    {
      msgList, synchronizer, unblocked := [], 0, Clear;
    }

    method Insert(ghost t: nat, msg: Msg)
      modifies `msgList
      ensures View() == ObjectStep(old(View()), Step.Insert(t, msg))
    {
      msgList := msgList + [msg];
    }

    method Post(ghost t: nat)
      modifies `synchronizer
      ensures View() == ObjectStep(old(View()), Step.Post(t))
    {
      synchronizer := synchronizer + 1;
    }

    method Wait(ghost t: nat)
      requires synchronizer > 0
      modifies `synchronizer
      ensures View() == ObjectStep(old(View()), Step.Wait(t))
    {
      synchronizer := synchronizer - 1;
    }

    method Dequeue(ghost t: nat) returns (msg: Msg)
      requires msgList != []
      modifies `msgList
      ensures msg == old(msgList[0]) && View() == ObjectStep(old(View()), Step.Dequeue(t))
    {
      msg := msgList[0];
      msgList := msgList[1..];
    }

    method Raise(ghost t: nat, flag: Flag)
      modifies `unblocked
      ensures View() == ObjectStep(old(View()), Step.Raise(t, flag))
    {
      unblocked := flag;
    }

    /** The local part of MessageQ_put. */
    method Put(ghost t: nat, msg: Msg)
      modifies this
      ensures View() == Object(old(msgList) + [msg], old(synchronizer) + 1, old(unblocked))
    {
      Insert(t, msg);
      Post(t);
    }

    /** MessageQ_unblock and MessageQ_shutdown. */
    method Unblock(ghost t: nat, flag: Flag)
      modifies this
      ensures View() == Object(old(msgList), old(synchronizer) + 1, flag)
    {
      Raise(t, flag);
      Post(t);
    }

    /** MessageQ_get on a queue no other thread is in the middle of using: the oldest message, or the
      * flag, or a timeout when there is nothing to wait for. */
    method Get(ghost t: nat) returns (r: Result)
      requires unblocked.Clear? ==> |msgList| == synchronizer
      modifies this
      ensures unblocked == old(unblocked)
      ensures old(synchronizer) == 0 ==> r == TimedOut && View() == old(View())
      ensures old(synchronizer) > 0 && old(unblocked) != Clear ==>
        r == Status(old(unblocked)) && msgList == old(msgList) && synchronizer == old(synchronizer) - 1
      ensures old(synchronizer) > 0 && old(unblocked) == Clear ==>
        r.Message? && old(msgList) == [r.msg] + msgList && synchronizer == old(synchronizer) - 1
    {
      if synchronizer == 0 {
        return TimedOut;
      }
      Wait(t);
      if unblocked != Clear {
        return Status(unblocked);
      }
      var msg := Dequeue(t);
      r := Message(msg);
    }
  }
}
