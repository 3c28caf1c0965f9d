/** The daemon's message queue table as objects: an array of pointers to queue objects that create fills,
  * delete clears and growing replaces, against the value of QueueSlots. */
module QueueTable {
  import opened Counting
  import NT = NameTable
  import QS = QueueSlots

  class QueueObject {
    var queue: nat
    var nsKey: Option<string>
    var ownerPid: int

    constructor ()
      ensures queue == 0 && nsKey == None && ownerPid == 0
    {
      queue, nsKey, ownerPid := 0, None, 0;
    }
  }

  class MessageQModule {
    var queues: array<QueueObject?>
    var names: map<string, nat>
    const maxNameLen: nat
    const numReserved: nat
    const procId: nat
    const ptrSize: nat

    ghost function Objects(): set<QueueObject>
      reads this, queues
    {
      set i | 0 <= i < queues.Length && queues[i] != null :: queues[i]
    }

    ghost function SlotOf(q: QueueObject?): Option<QS.Queue>
      reads q
    {
      if q == null then None else Some(QS.Queue(q.queue, q.nsKey, q.ownerPid))
    }

    ghost function Slots(): (slots: seq<Option<QS.Queue>>)
      reads this, queues, Objects()
      ensures |slots| == queues.Length && forall i :: 0 <= i < |slots| ==> slots[i] == SlotOf(queues[i])
    {
      seq(queues.Length, i requires 0 <= i < queues.Length reads this, queues, Objects() => SlotOf(queues[i]))
    }

    ghost function View(): QS.Daemon
      reads this, queues, Objects()
    {
      QS.Daemon(Slots(), names, maxNameLen, numReserved, procId, ptrSize)
    }

    /** No queue object is in two slots. */
    ghost predicate Distinct()
      reads this, queues
    {
      forall i, j :: 0 <= i < j < queues.Length && queues[i] != null ==> queues[i] != queues[j]
    }

    ghost predicate Inv()
      reads this, queues, Objects()
    {
      QS.Good(View()) && Distinct()
    }

    /** The search for a hole among the dynamic slots. */
    method FindHole() returns (i: nat)
      requires numReserved <= queues.Length
      ensures i == QS.FreeFrom(Slots(), numReserved)
    {
      i := numReserved;
      while i < queues.Length
        invariant numReserved <= i <= queues.Length
        invariant forall j :: numReserved <= j < i ==> queues[j] != null
      {
        if queues[i] == null {
          break;
        }
        i := i + 1;
      }
      ghost var k := QS.FreeFrom(Slots(), numReserved);
      assert k < i ==> Slots()[k] == SlotOf(queues[k]);
      assert i < queues.Length ==> Slots()[i] == None;
    }

    /** _MessageQ_grow without its new entry: the size of the copy is computed in 16 bits. */
    method Grow()
      requires Distinct() && QS.PtrOk(ptrSize)
      modifies `queues
      ensures fresh(queues) && Slots() == QS.Enlarged(old(View()))
      ensures queues.Length == old(queues.Length) + QS.GROWSIZE
      ensures Distinct() && forall i :: old(queues.Length) <= i < queues.Length ==> queues[i] == null
    {
      ghost var d := View();
      var oldSize := queues.Length * ptrSize % 0x1_0000;
      var n := oldSize / ptrSize;
      assert n == QS.Copied(d);
      var larger := new QueueObject?[queues.Length + QS.GROWSIZE](_ => null);
      var was := queues;
      var i := 0;
      while i < n
        invariant i <= n <= was.Length && larger.Length == was.Length + QS.GROWSIZE
        invariant forall j :: 0 <= j < i ==> larger[j] == was[j]
        invariant forall j :: i <= j < larger.Length ==> larger[j] == null
        modifies larger
      {
        larger[i] := was[i];
        i := i + 1;
      }
      queues := larger;
      forall j | 0 <= j < queues.Length ensures Slots()[j] == QS.Enlarged(d)[j] {
        assert Slots()[j] == SlotOf(queues[j]);
        if j < n {
          assert d.slots[j] == SlotOf(was[j]);
        }
      }
    }

    method Enter(i: nat) returns (obj: QueueObject)
      requires i < queues.Length && queues[i] == null
      modifies queues
      ensures fresh(obj) && queues[i] == obj
      ensures Slots() == old(Slots())[i := Some(QS.Queue(QS.QueueId(procId, i), None, 0))]
      ensures forall j :: 0 <= j < queues.Length && j != i ==> queues[j] == old(queues[j])
    {
      ghost var slots := Slots();
      obj := new QueueObject();
      queues[i] := obj;
      obj.queue := procId * 0x1_0000 + (i + QS.PORTOFFSET) % 0x1_0000;
      forall j | 0 <= j < queues.Length && j != i ensures Slots()[j] == slots[j] {
        assert Slots()[j] == SlotOf(queues[j]);
      }
    }

    /** A reserved index, refused when it is too large or taken. */
    method CreateReserved(q: nat) returns (obj: QueueObject?)
      requires Inv()
      modifies queues
      ensures Inv() && queues == old(queues)
      ensures (View(), if obj == null then None else Some(q)) == QS.Create(old(View()), Some(q))
      ensures obj != null ==> q < queues.Length && queues[q] == obj
    {
      QS.CreateKeepsGood(View(), Some(q));
      if q > numReserved || queues[q] != null {
        assert q <= numReserved ==> View().slots[q] == SlotOf(queues[q]);
        return null;
      }
      assert View().slots[q] == SlotOf(queues[q]);
      obj := Enter(q);
    }

    /** The first hole among the dynamic slots, or the first slot of a larger table. */
    method FindRoom() returns (i: nat)
      requires Distinct() && QS.PtrOk(ptrSize) && numReserved <= queues.Length
      modifies `queues
      ensures Distinct() && (queues == old(queues) || fresh(queues))
      ensures i == QS.FreeFrom(old(Slots()), numReserved)
      ensures Slots() == if i < old(queues.Length) then old(Slots()) else QS.Enlarged(old(View()))
      ensures i < queues.Length && queues[i] == null
    {
      i := FindHole();
      assert i < queues.Length ==> Slots()[i] == SlotOf(queues[i]);
      if i == queues.Length {
        Grow();
      }
    }

    method CreateAny() returns (obj: QueueObject, i: nat)
      requires Inv()
      modifies this, queues
      ensures (View(), Some(i)) == QS.Create(old(View()), None)
      ensures Distinct() && i < queues.Length && queues[i] == obj
    {
      i := FindRoom();
      obj := Enter(i);
    }

    /** MessageQ_create; the queues keep their places unless the table grows from a size that does not
      * fit. */
    method Create(request: Option<nat>) returns (obj: QueueObject?, index: Option<nat>)
      requires Inv()
      modifies this, queues
      ensures (View(), index) == QS.Create(old(View()), request) && Distinct()
      ensures (old(QS.Grows(View(), request)) ==> old(QS.Fits(View()))) ==> Inv()
      ensures index.Some? <==> obj != null
      ensures index.Some? ==> index.value < queues.Length && queues[index.value] == obj
    {
      ghost var d := View();
      if request.Some? {
        obj := CreateReserved(request.value);
        index := if obj == null then None else request;
      } else {
        var i;
        obj, i := CreateAny();
        index := Some(i);
        if QS.Grows(d, None) ==> QS.Fits(d) {
          QS.CreateKeepsGood(d, None);
        }
      }
    }

    /** MessageQ_announce of the queue in slot i. */
    method Announce(i: nat, name: Option<string>) returns (ok: bool)
      requires Inv() && i < queues.Length && queues[i] != null
      modifies `names, queues[i]
      ensures Inv() && (View(), ok) == QS.Announce(old(View()), i, name)
    {
      ghost var d := View();
      assert d.slots[i] == SlotOf(queues[i]);
      QS.AnnounceKeepsGood(d, i, name);
      var obj := queues[i];
      if name.None? || obj.nsKey.Some? {
        return false;
      }
      if |name.value| <= NT.NameLimit(maxNameLen) && name.value !in names {
        names := names[name.value := obj.queue];
        obj.nsKey := name;
        assert forall j :: 0 <= j < queues.Length && j != i ==> Slots()[j] == d.slots[j];
        assert Slots() == d.slots[i := Some(d.slots[i].value.(nsKey := name))];
      }
      ok := true;
    }

    /** MessageQ_setQueueOwner of the queue in slot i. */
    method SetOwner(i: nat, pid: int)
      requires Inv() && i < queues.Length && queues[i] != null
      modifies queues[i]
      ensures Inv() && View() == QS.SetOwner(old(View()), i, pid)
    {
      ghost var d := View();
      assert d.slots[i] == SlotOf(queues[i]);
      QS.SetOwnerKeepsGood(d, i, pid);
      queues[i].ownerPid := pid;
      assert forall j :: 0 <= j < queues.Length && j != i ==> Slots()[j] == d.slots[j];
      assert Slots() == d.slots[i := Some(d.slots[i].value.(owner := pid))];
    }

    method ClearSlot(i: nat)
      requires Distinct() && i < queues.Length
      modifies queues
      ensures Distinct() && Slots() == old(Slots())[i := None]
    {
      ghost var slots := Slots();
      queues[i] := null;
      forall j | 0 <= j < queues.Length && j != i ensures Slots()[j] == slots[j] {
        assert Slots()[j] == SlotOf(queues[j]);
      }
    }

    /** Takes the queue's name out and clears the slot its id leads to. */
    method TakeOut(i: nat)
      requires Distinct() && i < queues.Length && queues[i] != null && QS.IndexOf(queues[i].queue) == i
      modifies `names, queues
      ensures Distinct() && Slots() == old(Slots())[i := None]
      ensures names == var q := old(SlotOf(queues[i])).value;
        if q.nsKey.Some? then old(names) - {q.nsKey.value} else old(names)
    {
      var obj := queues[i];
      var index := QS.IndexOf(obj.queue);
      if obj.nsKey.Some? {
        names := names - {obj.nsKey.value};
      }
      ClearSlot(index);
    }

    /** MessageQ_delete of the queue in slot i, which its id leads back to. */
    method Delete(i: nat)
      requires Inv() && i < queues.Length && queues[i] != null
      modifies `names, queues
      ensures Inv() && Slots() == old(Slots())[i := None] && View() == QS.Delete(old(View()), i)
    {
      ghost var d := View();
      assert d.slots[i] == SlotOf(queues[i]);
      QS.DeleteKeepsGood(d, i);
      TakeOut(i);
      assert View() == QS.Delete(d, i);
    }

    method CleanupOwner(pid: int)
      requires Inv()
      modifies this, queues
      ensures Inv() && queues == old(queues) && View() == QS.Cleanup(old(View()), pid, 0)
    {
      var i := 0;
      while i < queues.Length
        invariant i <= queues.Length && queues == old(queues)
        invariant Inv() && QS.Cleanup(View(), pid, i) == QS.Cleanup(old(View()), pid, 0)
      {
        assert View().slots[i] == SlotOf(queues[i]);
        if queues[i] != null {
          assert QS.IndexOf(View().slots[i].value.queueId) == i;
        }
        if queues[i] != null && queues[i].ownerPid == pid {
          Delete(i);
        }
        i := i + 1;
      }
    }
  }
}
