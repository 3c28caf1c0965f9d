/** The daemon's message queues as a value: a table of slots that grows by 32, queue ids that carry the
  * slot, and the names under which queues were announced. */
module QueueSlots {
  import opened Counting
  import NT = NameTable

  const PORTOFFSET: nat := 0x80
  const GROWSIZE: nat := 32

  datatype Queue = Queue(queueId: nat, nsKey: Option<string>, owner: int)

  /** names is the name server's table and maxNameLen its configured limit, ptrSize the size of a pointer,
    * in which the byte size of the table is computed. */
  datatype Daemon = Daemon(
    slots: seq<Option<Queue>>, names: map<string, nat>, maxNameLen: nat, numReserved: nat, procId: nat,
    ptrSize: nat)

  /** The port is a 16-bit number. */
  function QueueId(procId: nat, index: nat): nat {
    procId * 0x1_0000 + (index + PORTOFFSET) % 0x1_0000
  }

  /** The index is a 16-bit number. */
  function IndexOf(queueId: nat): nat {
    (queueId % 0x1_0000 + 0x1_0000 - PORTOFFSET) % 0x1_0000
  }

  // ---------------------------------------------------------------- operations

  /** The first free slot from i on, or the length. */
  function FreeFrom(slots: seq<Option<Queue>>, i: nat): (k: nat)
    requires i <= |slots|
    ensures i <= k <= |slots| && (k < |slots| ==> slots[k] == None)
    ensures forall j :: i <= j < k ==> slots[j].Some?
    decreases |slots| - i
  {
    if i == |slots| || slots[i] == None then i else FreeFrom(slots, i + 1)
  }

  /** How many entries growing copies: the byte size is cut to 16 bits. */
  function Copied(d: Daemon): (n: nat)
    requires PtrOk(d.ptrSize)
    ensures n <= |d.slots|
  {
    CutSize(|d.slots|, d.ptrSize);
    |d.slots| * d.ptrSize % 0x1_0000 / d.ptrSize
  }

  /** A pointer has 4 or 8 bytes. */
  predicate PtrOk(size: nat) {
    size == 4 || size == 8
  }

  lemma CutSize(n: nat, size: nat)
    requires PtrOk(size)
    ensures n * size % 0x1_0000 / size <= n
    ensures n * size < 0x1_0000 ==> n * size % 0x1_0000 / size == n
  {
    if size == 4 {
      assert n * 4 % 0x1_0000 / 4 <= n;
    } else {
      assert n * 8 % 0x1_0000 / 8 <= n;
    }
  }

  function NoQueues(n: nat): seq<Option<Queue>> {
    seq(n, _ => None)
  }

  /** The table after growing, without the new entry. */
  function Enlarged(d: Daemon): (slots: seq<Option<Queue>>)
    requires PtrOk(d.ptrSize)
    ensures |slots| == |d.slots| + GROWSIZE
  {
    d.slots[..Copied(d)] + NoQueues(|d.slots| + GROWSIZE - Copied(d))
  }

  function Fill(d: Daemon, slots: seq<Option<Queue>>, index: nat): Daemon
    requires index < |slots|
  {
    d.(slots := slots[index := Some(Queue(QueueId(d.procId, index), None, 0))])
  }

  /** MessageQ_create: request is a reserved index or none for any. The result is the slot. */
  function Create(d: Daemon, request: Option<nat>): (Daemon, Option<nat>)
    requires PtrOk(d.ptrSize) && d.numReserved < |d.slots|
  {
    match request
    case Some(q) =>
      if q > d.numReserved || d.slots[q].Some? then (d, None) else (Fill(d, d.slots, q), Some(q))
    case None =>
      var i := FreeFrom(d.slots, d.numReserved);
      if i < |d.slots| then (Fill(d, d.slots, i), Some(i))
      else (Fill(d, Enlarged(d), i), Some(i))
  }

  /** The name server takes the name: it is not too long and not there already. */
  predicate Accepts(d: Daemon, name: string) {
    |name| <= NT.NameLimit(d.maxNameLen) && name !in d.names
  }

  /** MessageQ_announce: a name the name server refuses leaves the queue without a key, but is no error. */
  function Announce(d: Daemon, i: nat, name: Option<string>): (Daemon, bool)
    requires i < |d.slots| && d.slots[i].Some?
  {
    var q := d.slots[i].value;
    if name.None? || q.nsKey.Some? then (d, false)
    else if !Accepts(d, name.value) then (d, true)
    else (d.(slots := d.slots[i := Some(q.(nsKey := name))], names := d.names[name.value := q.queueId]), true)
  }

  /** MessageQ_delete of the queue in slot i: its id says which slot is cleared. */
  function Delete(d: Daemon, i: nat): Daemon
    requires i < |d.slots| && d.slots[i].Some? && IndexOf(d.slots[i].value.queueId) < |d.slots|
  {
    var q := d.slots[i].value;
    var t := if q.nsKey.Some? then d.(names := d.names - {q.nsKey.value}) else d;
    t.(slots := t.slots[IndexOf(q.queueId) := None])
  }

  function SetOwner(d: Daemon, i: nat, pid: int): Daemon
    requires i < |d.slots| && d.slots[i].Some?
  {
    d.(slots := d.slots[i := Some(d.slots[i].value.(owner := pid))])
  }

  // ---------------------------------------------------------------- invariant

  /** Every live queue sits in the slot its id decodes to. */
  ghost predicate IdsOk(d: Daemon) {
    && |d.slots| <= 0xFF00
    && forall i :: 0 <= i < |d.slots| && d.slots[i].Some? ==>
         d.slots[i].value.queueId == QueueId(d.procId, i) && IndexOf(d.slots[i].value.queueId) == i
  }

  /** Some live queue was announced under that name and has that id. */
  ghost predicate AnnouncedAs(d: Daemon, name: string, id: nat) {
    exists i :: 0 <= i < |d.slots| && d.slots[i].Some? && d.slots[i].value.nsKey == Some(name)
      && d.slots[i].value.queueId == id
  }

  /** The names stand exactly for the ids of the queues announced under them. */
  ghost predicate NamesOk(d: Daemon) {
    && (forall name :: name in d.names ==> AnnouncedAs(d, name, d.names[name]))
    && (forall i :: 0 <= i < |d.slots| && d.slots[i].Some? && d.slots[i].value.nsKey.Some? ==>
         d.slots[i].value.nsKey.value in d.names
         && d.names[d.slots[i].value.nsKey.value] == d.slots[i].value.queueId)
  }

  ghost predicate Good(d: Daemon) {
    PtrOk(d.ptrSize) && d.numReserved < |d.slots| && IdsOk(d) && NamesOk(d)
  }

  lemma IdDecodes(procId: nat, index: nat)
    requires index < 0xFF00
    ensures IndexOf(QueueId(procId, index)) == index
    ensures QueueId(procId, index) == procId * 0x1_0000 + index + 0x80
  {
    LowHalf(procId, index + PORTOFFSET);
  }

  lemma LowHalf(high: nat, low: nat)
    requires low < 0x1_0000
    ensures (high * 0x1_0000 + low) % 0x1_0000 == low
  {
  }

  /** THEOREM. Live queues have different ids. */
  lemma IdsUnique(d: Daemon, i: nat, j: nat)
    requires Good(d) && i < |d.slots| && j < |d.slots| && d.slots[i].Some? && d.slots[j].Some?
    ensures d.slots[i].value.queueId == d.slots[j].value.queueId ==> i == j
  {
    assert IndexOf(d.slots[i].value.queueId) == i;
  }

  // ---------------------------------------------------------------- create and growth

  /** Growing keeps every queue where it is. */
  ghost predicate GrowthKeeps(d: Daemon)
    requires PtrOk(d.ptrSize)
  {
    forall i :: 0 <= i < |d.slots| ==> Enlarged(d)[i] == d.slots[i]
  }

  /** The byte size of the table fits in 16 bits. */
  predicate Fits(d: Daemon) {
    |d.slots| * d.ptrSize < 0x1_0000
  }

  /** A create of this request makes the table grow: no dynamic slot is free. */
  predicate Grows(d: Daemon, request: Option<nat>)
    requires d.numReserved < |d.slots|
  {
    request.None? && FreeFrom(d.slots, d.numReserved) == |d.slots|
  }

  /** THEOREM. When the table grows, which it does when no dynamic slot is free, it loses no queue if and
    * only if its byte size fits in 16 bits. */
  lemma GrowthKeepsIff(d: Daemon)
    requires PtrOk(d.ptrSize) && d.numReserved < |d.slots| && Grows(d, None)
    ensures GrowthKeeps(d) <==> Fits(d)
  {
    CutSize(|d.slots|, d.ptrSize);
    var last := |d.slots| - 1;
    assert d.slots[last].Some?;
    if !Fits(d) {
      CutLoses(|d.slots|, d.ptrSize);
      assert Enlarged(d)[last] == None;
    }
  }

  lemma CutLoses(n: nat, size: nat)
    requires PtrOk(size) && n * size >= 0x1_0000
    ensures n * size % 0x1_0000 / size < n
  {
    if size == 4 {
      assert n * 4 % 0x1_0000 / 4 < n;
    } else {
      assert n * 8 % 0x1_0000 / 8 < n;
    }
  }

  /** A table of 16384 pointers of 4 bytes, all in use: growing drops every one of them. */
  lemma GrowthCanLoseAll(d: Daemon)
    requires d.ptrSize == 4 && |d.slots| == 0x4000
    ensures Copied(d) == 0
    ensures forall i :: 0 <= i < |d.slots| ==> Enlarged(d)[i] == None
  {
  }

  /** THEOREM. Growing keeps exactly the first so many entries: their number modulo 16384 for pointers of
    * 4 bytes, modulo 8192 for pointers of 8. */
  lemma GrowthKeepsExactly(d: Daemon)
    requires PtrOk(d.ptrSize)
    ensures var n := if d.ptrSize == 4 then |d.slots| % 0x4000 else |d.slots| % 0x2000;
      && n <= |d.slots| && |Enlarged(d)| == |d.slots| + 32
      && forall i :: 0 <= i < |d.slots| + 32 ==> Enlarged(d)[i] == if i < n then d.slots[i] else None
  {
    if d.ptrSize == 4 {
      CutInFours(|d.slots|);
    } else {
      CutInEights(|d.slots|);
    }
  }

  lemma CutInFours(n: nat)
    ensures n * 4 % 0x1_0000 / 4 == n % 0x4000
  {
    assert n == n / 0x4000 * 0x4000 + n % 0x4000;
    assert n * 4 == n / 0x4000 * 0x1_0000 + n % 0x4000 * 4;
  }

  lemma CutInEights(n: nat)
    ensures n * 8 % 0x1_0000 / 8 == n % 0x2000
  {
    assert n == n / 0x2000 * 0x2000 + n % 0x2000;
    assert n * 8 == n / 0x2000 * 0x1_0000 + n % 0x2000 * 8;
  }

  lemma FillKeeps(d: Daemon, slots: seq<Option<Queue>>, index: nat)
    requires Good(d) && |d.slots| <= |slots| <= 0xFF00 && index < |slots| && slots[index] == None
    requires forall i :: 0 <= i < |d.slots| ==> slots[i] == d.slots[i]
    requires forall i :: |d.slots| <= i < |slots| ==> slots[i] == None
    ensures Good(Fill(d, slots, index))
  {
    IdDecodes(d.procId, index);
    var d' := Fill(d, slots, index);
    forall name | name in d'.names ensures AnnouncedAs(d', name, d'.names[name]) {
      assert AnnouncedAs(d, name, d.names[name]);
      var i :| 0 <= i < |d.slots| && d.slots[i].Some? && d.slots[i].value.nsKey == Some(name)
        && d.slots[i].value.queueId == d.names[name];
      assert d'.slots[i] == d.slots[i];
    }
  }

  lemma GrowthRoom(d: Daemon)
    requires PtrOk(d.ptrSize) && Fits(d)
    ensures |d.slots| + GROWSIZE <= 0xFF00
  {
  }

  /** THEOREM. A create puts a new queue into a slot that was free, at or above the reserved ones unless it
    * was asked for there, and keeps every other queue and every name; it fails only for a reserved index
    * that is too large or taken. Only a create that makes the table grow needs its byte size to fit. */
  lemma CreateKeepsGood(d: Daemon, request: Option<nat>)
    requires Good(d) && (Grows(d, request) ==> Fits(d))
    ensures var (d', r) := Create(d, request);
      && Good(d') && d'.names == d.names
      && (r.None? <==> request.Some? && (request.value > d.numReserved || d.slots[request.value].Some?))
      && (r.None? ==> d' == d)
      && (r.Some? ==>
           && r.value < |d'.slots| && (r.value < |d.slots| ==> d.slots[r.value] == None)
           && (if request.Some? then r == request else r.value >= d.numReserved)
           && d'.slots[r.value] == Some(Queue(d.procId * 0x1_0000 + r.value + 0x80, None, 0))
           && |d'.slots| == |d.slots| + (if Grows(d, request) then 32 else 0)
           && forall i :: 0 <= i < |d.slots| && i != r.value ==> d'.slots[i] == d.slots[i])
  {
    match request
    case Some(q) =>
      if q <= d.numReserved && d.slots[q] == None {
        FillKeeps(d, d.slots, q);
      }
    case None =>
      var i := FreeFrom(d.slots, d.numReserved);
      if i < |d.slots| {
        FillKeeps(d, d.slots, i);
      } else {
        GrowthKeepsIff(d);
        GrowthRoom(d);
        FillKeeps(d, Enlarged(d), i);
      }
  }

  /** THEOREM. A create loses no queue if and only if it finds a slot or the table fits. */
  lemma CreateKeepsIff(d: Daemon, request: Option<nat>)
    requires Good(d)
    ensures var d' := Create(d, request).0;
      (forall i :: 0 <= i < |d.slots| && d.slots[i].Some? ==> d'.slots[i] == d.slots[i]) <==>
      (Grows(d, request) ==> Fits(d))
  {
    if Grows(d, request) && !Fits(d) {
      var last := |d.slots| - 1;
      CutLoses(|d.slots|, d.ptrSize);
      assert d.slots[last].Some? && Create(d, request).0.slots[last] == None;
    } else {
      CreateKeepsGood(d, request);
    }
  }

  // ---------------------------------------------------------------- announce and delete

  /** THEOREM. An announce of a queue without a key enters the name with the queue's id if the name server
    * takes it, which needs a name shorter than a configured limit that is not there already; else it
    * changes nothing. */
  lemma AnnounceKeepsGood(d: Daemon, i: nat, name: Option<string>)
    requires Good(d) && i < |d.slots| && d.slots[i].Some?
    ensures var (d', ok) := Announce(d, i, name);
      && Good(d') && (ok <==> name.Some? && d.slots[i].value.nsKey == None)
      && if ok && (if d.maxNameLen > 0 then |name.value| < d.maxNameLen else |name.value| <= 0xFFFF_FFFF)
           && name.value !in d.names
         then
           && d'.names == d.names[name.value := d.slots[i].value.queueId]
           && d'.slots[i] == Some(Queue(d.slots[i].value.queueId, name, d.slots[i].value.owner))
           && forall j :: 0 <= j < |d.slots| && j != i ==> d'.slots[j] == d.slots[j]
         else d' == d
  {
    var d' := Announce(d, i, name).0;
    if d' != d {
      forall n | n in d'.names ensures AnnouncedAs(d', n, d'.names[n]) {
        if n == name.value {
          assert d'.slots[i].value.nsKey == Some(n);
        } else {
          assert AnnouncedAs(d, n, d.names[n]);
          var j :| 0 <= j < |d.slots| && d.slots[j].Some? && d.slots[j].value.nsKey == Some(n)
            && d.slots[j].value.queueId == d.names[n];
          assert d'.slots[j] == d.slots[j];
        }
      }
      forall j | 0 <= j < |d'.slots| && d'.slots[j].Some? && d'.slots[j].value.nsKey.Some?
        ensures d'.slots[j].value.nsKey.value in d'.names
        ensures d'.names[d'.slots[j].value.nsKey.value] == d'.slots[j].value.queueId
      {
        if j != i {
          assert d.slots[j].value.nsKey.value in d.names;
        }
      }
    }
  }

  /** THEOREM. Deleting a queue clears its own slot and its own name and nothing else. */
  lemma DeleteKeepsGood(d: Daemon, i: nat)
    requires Good(d) && i < |d.slots| && d.slots[i].Some?
    ensures IndexOf(d.slots[i].value.queueId) == i
    ensures var d' := Delete(d, i);
      && Good(d') && d'.slots == d.slots[i := None]
      && forall n :: n in d'.names <==> n in d.names && d.slots[i].value.nsKey != Some(n)
  {
    var d' := Delete(d, i);
    forall n | n in d'.names ensures AnnouncedAs(d', n, d'.names[n]) {
      assert AnnouncedAs(d, n, d.names[n]);
      var j :| 0 <= j < |d.slots| && d.slots[j].Some? && d.slots[j].value.nsKey == Some(n)
        && d.slots[j].value.queueId == d.names[n];
      assert j != i;
      assert d'.slots[j] == d.slots[j];
    }
    forall j | 0 <= j < |d'.slots| && d'.slots[j].Some? && d'.slots[j].value.nsKey.Some?
      ensures d'.slots[j].value.nsKey.value in d'.names
      ensures d'.names[d'.slots[j].value.nsKey.value] == d'.slots[j].value.queueId
    {
      IdsUnique(d, i, j);
      assert d.slots[j].value.nsKey.value in d.names;
    }
  }

  predicate OwnedBy(slot: Option<Queue>, pid: int) {
    slot.Some? && slot.value.owner == pid
  }

  /** MessageQ_cleanupOwner from slot i on. */
  function Cleanup(d: Daemon, pid: int, i: nat): Daemon
    requires i <= |d.slots|
    decreases |d.slots| - i
  {
    if i == |d.slots| then d
    else if OwnedBy(d.slots[i], pid) && IndexOf(d.slots[i].value.queueId) < |d.slots| then
      Cleanup(Delete(d, i), pid, i + 1)
    else Cleanup(d, pid, i + 1)
  }

  /** From slot i on, exactly the queues of that process are gone. */
  ghost predicate Cleaned(slots: seq<Option<Queue>>, slots': seq<Option<Queue>>, pid: int, i: nat) {
    && |slots'| == |slots|
    && forall j :: 0 <= j < |slots| ==> slots'[j] == if j >= i && OwnedBy(slots[j], pid) then None else slots[j]
  }

  lemma CleanedStep(slots: seq<Option<Queue>>, slots': seq<Option<Queue>>, pid: int, i: nat)
    requires i < |slots|
    requires Cleaned(if OwnedBy(slots[i], pid) then slots[i := None] else slots, slots', pid, i + 1)
    ensures Cleaned(slots, slots', pid, i)
  {
  }

  lemma CleanupUnfold(d: Daemon, pid: int, i: nat) returns (t: Daemon)
    requires Good(d) && i < |d.slots|
    ensures Good(t) && t.slots == if OwnedBy(d.slots[i], pid) then d.slots[i := None] else d.slots
    ensures Cleanup(d, pid, i) == Cleanup(t, pid, i + 1)
  {
    t := d;
    if OwnedBy(d.slots[i], pid) {
      DeleteKeepsGood(d, i);
      t := Delete(d, i);
    }
  }

  /** THEOREM. Cleaning up after a process deletes all its queues and no others. */
  lemma {:induction false} CleanupExact(d: Daemon, pid: int, i: nat)
    requires Good(d) && i <= |d.slots|
    ensures Good(Cleanup(d, pid, i)) && Cleaned(d.slots, Cleanup(d, pid, i).slots, pid, i)
    decreases |d.slots| - i
  {
    if i < |d.slots| {
      var t := CleanupUnfold(d, pid, i);
      CleanupExact(t, pid, i + 1);
      CleanedStep(d.slots, Cleanup(t, pid, i + 1).slots, pid, i);
    }
  }

  // ---------------------------------------------------------------- runs

  /** THEOREM. Setting the owner changes the owner of that queue and nothing else of the daemon. */
  lemma SetOwnerKeepsGood(d: Daemon, i: nat, pid: int)
    requires Good(d) && i < |d.slots| && d.slots[i].Some?
    ensures var d' := SetOwner(d, i, pid);
      && Good(d') && d' == d.(slots := d'.slots) && |d'.slots| == |d.slots|
      && d'.slots[i] == Some(Queue(d.slots[i].value.queueId, d.slots[i].value.nsKey, pid))
      && forall j :: 0 <= j < |d.slots| && j != i ==> d'.slots[j] == d.slots[j]
  {
    var d' := SetOwner(d, i, pid);
    forall n | n in d'.names ensures AnnouncedAs(d', n, d'.names[n]) {
      assert AnnouncedAs(d, n, d.names[n]);
      var j :| 0 <= j < |d.slots| && d.slots[j].Some? && d.slots[j].value.nsKey == Some(n)
        && d.slots[j].value.queueId == d.names[n];
      assert d'.slots[j].Some? && d'.slots[j].value.nsKey == Some(n);
    }
  }

  datatype Op =
    | CreateOp(request: Option<nat>) | AnnounceOp(i: nat, name: Option<string>) | OwnerOp(i: nat, pid: int)
    | DeleteOp(i: nat) | CleanupOp(pid: int)

  /** Queues are announced, owned and deleted while they live. */
  predicate Can(d: Daemon, op: Op) {
    && PtrOk(d.ptrSize) && d.numReserved < |d.slots|
    && match op
       case CreateOp(_) => true
       case AnnounceOp(i, _) => i < |d.slots| && d.slots[i].Some?
       case OwnerOp(i, _) => i < |d.slots| && d.slots[i].Some?
       case DeleteOp(i) => i < |d.slots| && d.slots[i].Some? && IndexOf(d.slots[i].value.queueId) < |d.slots|
       case CleanupOp(_) => true
  }

  function Do(d: Daemon, op: Op): Daemon
    requires Can(d, op)
  {
    match op
    case CreateOp(request) => Create(d, request).0
    case AnnounceOp(i, name) => Announce(d, i, name).0
    case OwnerOp(i, pid) => SetOwner(d, i, pid)
    case DeleteOp(i) => Delete(d, i)
    case CleanupOp(pid) => Cleanup(d, pid, 0)
  }

  function Start(size: nat, maxNameLen: nat, numReserved: nat, procId: nat, ptrSize: nat): Daemon {
    Daemon(NoQueues(size), map[], maxNameLen, numReserved, procId, ptrSize)
  }

  ghost predicate Reaches(d: Daemon, ops: seq<Op>, d': Daemon)
    decreases |ops|
  {
    if ops == [] then d' == d
    else
      var last := |ops| - 1;
      exists u :: Reaches(d, ops[..last], u) && Can(u, ops[last]) && d' == Do(u, ops[last])
  }

  /** The table has not grown from a size that does not fit, as its size tells. */
  predicate GrewWell(d: Daemon, size: nat) {
    |d.slots| == size || (|d.slots| - GROWSIZE) * d.ptrSize < 0x1_0000
  }

  /** THEOREM. After any run of creates, announces, deletes and clean-ups from an empty table that has not
    * grown from 64 KB or more: every live queue sits in the slot its id decodes to, live ids are unique,
    * and the announced names stand exactly for the ids of live queues. */
  lemma EveryStateGood(size: nat, maxNameLen: nat, numReserved: nat, procId: nat, ptrSize: nat, ops: seq<Op>, d: Daemon)
    requires numReserved < size <= 0xFF00 && PtrOk(ptrSize)
    requires Reaches(Start(size, maxNameLen, numReserved, procId, ptrSize), ops, d) && GrewWell(d, size)
    ensures Good(d)
    ensures forall i: nat, j: nat :: i < j < |d.slots| && d.slots[i].Some? && d.slots[j].Some? ==>
      d.slots[i].value.queueId != d.slots[j].value.queueId
  {
    RunGood(Start(size, maxNameLen, numReserved, procId, ptrSize), ops, d);
    forall i: nat, j: nat | i < j < |d.slots| && d.slots[i].Some? && d.slots[j].Some?
      ensures d.slots[i].value.queueId != d.slots[j].value.queueId
    {
      IdsUnique(d, i, j);
    }
  }

  lemma {:induction false} RunGood(d: Daemon, ops: seq<Op>, d': Daemon)
    requires Good(d) && Reaches(d, ops, d') && GrewWell(d', |d.slots|)
    ensures Good(d') && |d'.slots| >= |d.slots|
    decreases |ops|
  {
    if ops != [] {
      var last := |ops| - 1;
      var u :| Reaches(d, ops[..last], u) && Can(u, ops[last]) && d' == Do(u, ops[last]);
      RunSize(d, ops[..last], u);
      GrewBefore(u, ops[last], |d.slots|);
      RunGood(d, ops[..last], u);
      StepKeepsGood(u, ops[last]);
    }
  }

  /** A step that grew the table well grew it from a size that fits, and so did those before it. */
  lemma GrewBefore(d: Daemon, op: Op, size: nat)
    requires Can(d, op) && GrewWell(Do(d, op), size)
    requires |d.slots| == size || |d.slots| >= size + GROWSIZE
    ensures GrewWell(d, size) && (op.CreateOp? && Grows(d, op.request) ==> Fits(d))
    ensures |Do(d, op).slots| >= |d.slots|
  {
    StepSize(d, op);
    if op.CreateOp? && Grows(d, op.request) {
      SmallerFits(|d.slots|, d.ptrSize);
    }
  }

  lemma SmallerFits(n: nat, size: nat)
    requires PtrOk(size) && n * size < 0x1_0000
    ensures n >= GROWSIZE ==> (n - GROWSIZE) * size < 0x1_0000
  {
  }

  lemma {:induction false} CleanupSize(d: Daemon, pid: int, i: nat)
    requires i <= |d.slots|
    ensures |Cleanup(d, pid, i).slots| == |d.slots| && Cleanup(d, pid, i).ptrSize == d.ptrSize
    decreases |d.slots| - i
  {
    if i < |d.slots| {
      if OwnedBy(d.slots[i], pid) && IndexOf(d.slots[i].value.queueId) < |d.slots| {
        CleanupSize(Delete(d, i), pid, i + 1);
      } else {
        CleanupSize(d, pid, i + 1);
      }
    }
  }

  /** The size changes by growing alone. */
  lemma StepSize(d: Daemon, op: Op)
    requires Can(d, op)
    ensures |Do(d, op).slots| == |d.slots| + (if op.CreateOp? && Grows(d, op.request) then GROWSIZE else 0)
    ensures Do(d, op).ptrSize == d.ptrSize
  {
    if op.CleanupOp? {
      CleanupSize(d, op.pid, 0);
    }
  }

  lemma {:induction false} RunSize(d: Daemon, ops: seq<Op>, d': Daemon)
    requires Reaches(d, ops, d')
    ensures |d'.slots| >= |d.slots| && d'.ptrSize == d.ptrSize
    ensures |d'.slots| == |d.slots| || |d'.slots| >= |d.slots| + GROWSIZE
    decreases |ops|
  {
    if ops != [] {
      var last := |ops| - 1;
      var u :| Reaches(d, ops[..last], u) && Can(u, ops[last]) && d' == Do(u, ops[last]);
      RunSize(d, ops[..last], u);
      StepSize(u, ops[last]);
    }
  }

  lemma StepKeepsGood(d: Daemon, op: Op)
    requires Good(d) && Can(d, op) && (op.CreateOp? && Grows(d, op.request) ==> Fits(d))
    ensures Good(Do(d, op))
  {
    match op
    case CreateOp(request) => CreateKeepsGood(d, request);
    case AnnounceOp(i, name) => AnnounceKeepsGood(d, i, name);
    case OwnerOp(i, pid) => SetOwnerKeepsGood(d, i, pid);
    case DeleteOp(i) => DeleteKeepsGood(d, i);
    case CleanupOp(pid) => CleanupExact(d, pid, 0);
  }
  /** THEOREM. What a step means for the queue in slot j: it goes exactly when it is deleted or its owner
    * is cleaned up after; while it stays its id stays, its owner is the last one set, and its key is set by
    * an announce of a queue without one, under a name that fits and is not taken. */
  lemma QueueLife(d: Daemon, op: Op, j: nat)
    requires Good(d) && Can(d, op) && (op.CreateOp? && Grows(d, op.request) ==> Fits(d))
    requires j < |d.slots| && d.slots[j].Some?
    ensures j < |Do(d, op).slots|
    ensures var q := d.slots[j].value;
      Do(d, op).slots[j] ==
        if op == DeleteOp(j) || op == CleanupOp(q.owner) then None
        else if op.OwnerOp? && op.i == j then Some(q.(owner := op.pid))
        else if op.AnnounceOp? && op.i == j && op.name.Some? && q.nsKey == None && op.name.value !in d.names
          && (if d.maxNameLen > 0 then |op.name.value| < d.maxNameLen else |op.name.value| <= 0xFFFF_FFFF)
        then Some(q.(nsKey := op.name))
        else Some(q)
  {
    match op
    case CreateOp(request) => CreateKeepsGood(d, request);
    case AnnounceOp(i, name) => AnnounceKeepsGood(d, i, name);
    case OwnerOp(i, p) => SetOwnerKeepsGood(d, i, p);
    case DeleteOp(i) => DeleteKeepsGood(d, i);
    case CleanupOp(p) => CleanupExact(d, p, 0);
  }

  // ---------------------------------------------------------------- owners over runs

  /** The step does not delete queue i, set its owner or clean up after that process. */
  predicate Spares(op: Op, i: nat, pid: int) {
    op != DeleteOp(i) && !(op.OwnerOp? && op.i == i) && op != CleanupOp(pid)
  }

  /** Slot i holds the queue with that id, owned by that process. */
  predicate Holds(d: Daemon, i: nat, id: nat, pid: int) {
    i < |d.slots| && d.slots[i].Some? && d.slots[i].value.queueId == id && d.slots[i].value.owner == pid
  }

  lemma StepKeepsQueue(d: Daemon, op: Op, i: nat, id: nat, pid: int)
    requires Good(d) && Can(d, op) && (op.CreateOp? && Grows(d, op.request) ==> Fits(d))
    requires Holds(d, i, id, pid) && Spares(op, i, pid)
    ensures Holds(Do(d, op), i, id, pid)
  {
    match op
    case CreateOp(request) => CreateKeepsGood(d, request);
    case AnnounceOp(j, name) => AnnounceKeepsGood(d, j, name);
    case OwnerOp(j, p) => SetOwnerKeepsGood(d, j, p);
    case DeleteOp(j) => DeleteKeepsGood(d, j);
    case CleanupOp(p) => CleanupExact(d, p, 0);
  }

  lemma {:induction false} RunKeepsQueue(d: Daemon, ops: seq<Op>, d': Daemon, i: nat, id: nat, pid: int)
    requires Good(d) && Reaches(d, ops, d') && GrewWell(d', |d.slots|)
    requires Holds(d, i, id, pid) && forall k :: 0 <= k < |ops| ==> Spares(ops[k], i, pid)
    ensures Good(d') && Holds(d', i, id, pid)
    decreases |ops|
  {
    RunGood(d, ops, d');
    if ops != [] {
      var last := |ops| - 1;
      var u :| Reaches(d, ops[..last], u) && Can(u, ops[last]) && d' == Do(u, ops[last]);
      RunSize(d, ops[..last], u);
      GrewBefore(u, ops[last], |d.slots|);
      RunGood(d, ops[..last], u);
      RunKeepsQueue(d, ops[..last], u, i, id, pid);
      StepKeepsQueue(u, ops[last], i, id, pid);
    }
  }

  /** THEOREM. After the owner of a queue was set to pid, through any run that does not delete the queue,
    * set its owner again or clean up after pid: it is in its slot with its id; cleaning up after pid
    * deletes it, and cleaning up after any other process leaves it as it is. */
  lemma OwnerDecidesCleanup(d: Daemon, i: nat, pid: int, ops: seq<Op>, u: Daemon)
    requires Good(d) && i < |d.slots| && d.slots[i].Some?
    requires Can(d, OwnerOp(i, pid)) && Reaches(Do(d, OwnerOp(i, pid)), ops, u) && GrewWell(u, |d.slots|)
    requires forall k :: 0 <= k < |ops| ==>
      ops[k] != DeleteOp(i) && !(ops[k].OwnerOp? && ops[k].i == i) && ops[k] != CleanupOp(pid)
    ensures Good(u) && i < |u.slots| && u.slots[i].Some? && u.slots[i].value.queueId == d.slots[i].value.queueId
    ensures forall p: int :: Can(u, CleanupOp(p)) ==>
      var d' := Do(u, CleanupOp(p));
      |d'.slots| == |u.slots| && d'.slots[i] == if p == pid then None else u.slots[i]
  {
    SetOwnerKeepsGood(d, i, pid);
    RunKeepsQueue(Do(d, OwnerOp(i, pid)), ops, u, i, d.slots[i].value.queueId, pid);
    forall p: int | Can(u, CleanupOp(p))
      ensures var d' := Do(u, CleanupOp(p));
        |d'.slots| == |u.slots| && d'.slots[i] == if p == pid then None else u.slots[i]
    {
      CleanupExact(u, p, 0);
    }
  }
}
