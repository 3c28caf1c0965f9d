/** The rpmsg transport's tables as the objects the source updates in place: the module's input fd array
  * and select parameters, and one growing index table per instance. Each method changes the tables as
  * the functions of RpmsgTables say. */
module RpmsgTransport {
  import opened RpmsgTables

  class Instance {
    var qIndexToFd: array<int>

    constructor ()
      ensures qIndexToFd[..] == seq(GROWSIZE, _ => -1) && fresh(qIndexToFd)
    {
      qIndexToFd := new int[GROWSIZE](_ => -1);
      new;
      assert qIndexToFd[..] == seq(GROWSIZE, _ => -1);
    }

    /** Reads the table unchecked: past its end the result is whatever word lies there. */
    method QueueIndexToFd(k: nat, beyond: int) returns (fd: int)
      ensures fd == if k < qIndexToFd.Length then qIndexToFd[k] else beyond
    {
      fd := if k < qIndexToFd.Length then qIndexToFd[k] else beyond;
    }

    method BindFdToQueueIndex(fd: int, k: nat)
      modifies this, qIndexToFd
      ensures qIndexToFd[..] == Grown(old(qIndexToFd[..]), k)[k := fd]
      ensures qIndexToFd == old(qIndexToFd) || fresh(qIndexToFd)
    {
      if k >= qIndexToFd.Length {
        var newCount := k + GROWSIZE;
        var oldQueues := qIndexToFd;
        var queues := new int[newCount](_ => 0);
        var i := 0;
        while i < oldQueues.Length
          invariant i <= oldQueues.Length
          invariant queues[..i] == oldQueues[..i]
          modifies queues
        {
          queues[i] := oldQueues[i];
          i := i + 1;
        }
        while i < newCount
          invariant oldQueues.Length <= i <= newCount
          invariant queues[..oldQueues.Length] == oldQueues[..]
          invariant forall j :: oldQueues.Length <= j < i ==> queues[j] == -1
          modifies queues
        {
          queues[i] := -1;
          i := i + 1;
        }
        assert queues[..] == Grown(oldQueues[..], k);
        qIndexToFd := queues;
      }
      qIndexToFd[k] := fd;
    }

    method UnbindQueueIndex(k: nat)
      requires k < qIndexToFd.Length
      modifies qIndexToFd
      ensures qIndexToFd[..] == old(qIndexToFd[..])[k := -1]
    {
      qIndexToFd[k] := -1;
    }
  }

  class Transport {
    const unblockEvent: int
    const inFds: array<Entry>
    var nInFds: nat
    var maxFd: int
    var rfds: set<int>
    const inst: seq<Instance>

    ghost function Index(): (rows: seq<seq<int>>)
      reads inst, set p | 0 <= p < |inst| :: inst[p].qIndexToFd
      ensures |rows| == |inst| && forall p :: 0 <= p < |rows| ==> rows[p] == inst[p].qIndexToFd[..]
    {
      seq(|inst|, p requires 0 <= p < |inst| reads inst, set q | 0 <= q < |inst| :: inst[q].qIndexToFd =>
        inst[p].qIndexToFd[..])
    }

    ghost predicate Shape()
      reads this, inst
    {
      && inFds.Length == 1024 && nInFds <= 1024
      && (forall p, q :: 0 <= p < q < |inst| ==> inst[p] != inst[q] && inst[p].qIndexToFd != inst[q].qIndexToFd)
    }

    ghost function View(): Tables
      requires Shape()
      reads this, inFds, inst, set p | 0 <= p < |inst| :: inst[p].qIndexToFd
    {
      Tables(unblockEvent, inFds[..nInFds], maxFd, rfds, Index())
    }

    constructor (event: int, inst: seq<Instance>)
      requires forall p, q :: 0 <= p < q < |inst| ==> inst[p] != inst[q] && inst[p].qIndexToFd != inst[q].qIndexToFd
      requires forall p :: 0 <= p < |inst| ==> inst[p].qIndexToFd[..] == seq(GROWSIZE, _ => -1)
      ensures Shape() && View() == Fresh(event, |inst|)
    {
      this.inst := inst;
      unblockEvent := event;
      inFds := new Entry[1024](_ => Entry(-1, 0));
      nInFds := 0;
      maxFd := event;
      rfds := {event};
      new;
      assert Index() == Fresh(event, |inst|).index;
    }

    /** The loop that finds the new largest descriptor. */
    method FindMax() returns (m: int)
      requires Shape()
      ensures m == MaxOf(unblockEvent, inFds[..nInFds])
    {
      m := unblockEvent;
      var i := 0;
      while i < nInFds
        invariant i <= nInFds && m == MaxOf(unblockEvent, inFds[..i])
      {
        assert inFds[..i + 1][..i] == inFds[..i];
        if inFds[i].fd > m {
          m := inFds[i].fd;
        }
        i := i + 1;
      }
    }

    /** The loop that takes an entry out of the input array and shifts the ones after it down. */
    method RemoveInput(fd: int)
      requires Shape()
      modifies `nInFds, inFds
      ensures Shape() && inFds[..nInFds] == Without(old(inFds[..nInFds]), fd)
    {
      ghost var was := inFds[..nInFds];
      var i := 0;
      while i < nInFds
        invariant i <= nInFds == |was| && inFds[..nInFds] == was
        invariant forall j :: 0 <= j < i ==> was[j].fd != fd
      {
        if inFds[i].fd == fd {
          assert FindFd(was, fd) == i;
          ShiftDown(i);
          return;
        }
        i := i + 1;
      }
      assert FindFd(was, fd) == |was|;
    }

    method ShiftDown(i: nat)
      requires Shape() && i < nInFds
      modifies `nInFds, inFds
      ensures Shape() && nInFds == old(nInFds) - 1
      ensures inFds[..nInFds] == old(inFds[..i]) + old(inFds[i + 1..nInFds])
    {
      ghost var was := inFds[..];
      nInFds := nInFds - 1;
      var j := i;
      while j < nInFds
        invariant nInFds == old(nInFds) - 1 && i <= j <= nInFds
        invariant inFds[..i] == was[..i]
        invariant forall k :: i <= k < j ==> inFds[k] == was[k + 1]
        invariant forall k :: j <= k < 1024 ==> inFds[k] == was[k]
      {
        inFds[j] := inFds[j + 1];
        j := j + 1;
      }
      inFds[nInFds] := Entry(-1, 0);
    }

    method AddInput(qId: nat, fd: int)
      requires Shape() && nInFds < 1024
      modifies this, inFds
      ensures Shape() && inFds[..nInFds] == old(inFds[..nInFds]) + [Entry(fd, qId)]
      ensures maxFd == (if old(maxFd) > fd then old(maxFd) else fd) && rfds == old(rfds) + {fd}
    {
      inFds[nInFds] := Entry(fd, qId);
      nInFds := nInFds + 1;
      maxFd := if maxFd > fd then maxFd else fd;
      rfds := rfds + {fd};
    }

    method SetIndex(p: nat, k: nat, fd: int)
      requires Shape() && p < |inst|
      modifies inst[p], inst[p].qIndexToFd
      ensures Shape() && Index() == old(Index())[p := Grown(old(Index()[p]), k)[k := fd]]
    {
      ghost var rows := Index();
      inst[p].BindFdToQueueIndex(fd, k);
      assert forall q :: 0 <= q < |inst| && q != p ==> Index()[q] == rows[q];
    }

    method ClearIndex(p: nat, k: nat)
      requires Shape() && p < |inst| && k < inst[p].qIndexToFd.Length
      modifies inst[p].qIndexToFd
      ensures Shape() && Index() == old(Index())[p := old(Index()[p])[k := -1]]
    {
      ghost var rows := Index();
      inst[p].UnbindQueueIndex(k);
      assert forall q :: 0 <= q < |inst| && q != p ==> Index()[q] == rows[q];
    }

    /** TransportRpmsg_bind on the tables: fd is the new socket, beyond the word past the index table. */
    method Bind(p: nat, qId: nat, fd: int, beyond: int)
      requires Shape() && Good(View()) && p < |inst| && QueueId(qId) && Unused(View(), fd)
      modifies this, inFds, inst[p], inst[p].qIndexToFd
      ensures Shape()
      ensures View() ==
        if old(if QIndex(qId) < inst[p].qIndexToFd.Length then inst[p].qIndexToFd[QIndex(qId)] else beyond) != -1
        then old(View())
        else RpmsgTables.Bind(old(View()), p, qId, fd)
    {
      var cur := inst[p].QueueIndexToFd(QIndex(qId), beyond);
      if cur != -1 {
        return;
      }
      RoomForNext(View(), fd);
      Register(p, qId, fd);
    }

    method Register(p: nat, qId: nat, fd: int)
      requires Shape() && nInFds < 1024 && p < |inst| && QueueId(qId)
      modifies this, inFds, inst[p], inst[p].qIndexToFd
      ensures Shape() && inFds[..nInFds] == old(inFds[..nInFds]) + [Entry(fd, qId)]
      ensures maxFd == (if old(maxFd) > fd then old(maxFd) else fd) && rfds == old(rfds) + {fd}
      ensures Index() == old(Index())[p := Grown(old(Index()[p]), QIndex(qId))[QIndex(qId) := fd]]
    {
      ghost var rows := Index();
      AddInput(qId, fd);
      assert Index() == rows;
      SetIndex(p, QIndex(qId), fd);
    }

    method DropInput(fd: int)
      requires Shape()
      modifies this, inFds
      ensures Shape() && inFds[..nInFds] == Without(old(inFds[..nInFds]), fd)
      ensures rfds == old(rfds) - {fd}
      ensures maxFd == if fd == old(maxFd) then MaxOf(unblockEvent, inFds[..nInFds]) else old(maxFd)
    {
      RemoveInput(fd);
      rfds := rfds - {fd};
      if fd == maxFd {
        maxFd := FindMax();
      }
    }

    /** TransportRpmsg_unbind on the tables: beyond is the word past the index table, which is written when
      * the queue index lies there and it does not read -1. */
    method Unbind(p: nat, k: nat, beyond: int)
      requires Shape() && p < |inst| && (k < inst[p].qIndexToFd.Length || beyond == -1)
      modifies this, inFds, inst[p].qIndexToFd
      ensures Shape()
      ensures View() == if k < inst[p].qIndexToFd.Length then RpmsgTables.Unbind(old(View()), p, k) else old(View())
    {
      var fd := inst[p].QueueIndexToFd(k, beyond);
      if fd == -1 {
        return;
      }
      ClearIndex(p, k);
      DropInput(fd);
    }

    /** What the dispatch thread does under the gate when the socket of entry i was shut down. */
    method MaskInput(i: nat) returns (qId: nat)
      requires Shape() && i < nInFds
      modifies `rfds, `maxFd
      ensures Shape() && View() == RpmsgTables.Mask(old(View()), inFds[i].fd) && qId == inFds[i].qId
    {
      var fd := inFds[i].fd;
      rfds := rfds - {fd};
      if fd == maxFd {
        maxFd := FindMax();
      }
      qId := inFds[i].qId;
    }
  }
}
