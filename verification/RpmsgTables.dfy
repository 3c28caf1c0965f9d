/** The file descriptor tables of the rpmsg transport as a value: the input fd array, the select set,
  * the largest fd, and for every attached processor a table from queue index to fd. */
module RpmsgTables {

  const FD_SETSIZE: nat := 1024
  const PORTOFFSET: nat := 0x80
  const GROWSIZE: nat := 32

  datatype Entry = Entry(fd: int, qId: nat)

  /** event is the fd of the unblock event. index[p][k] is the fd of queue index k for processor p, -1
    * for none. */
  datatype Tables = Tables(event: int, inFds: seq<Entry>, maxFd: int, rfds: set<int>, index: seq<seq<int>>)

  /** A queue id of this processor has its index plus the port offset in its low half. */
  predicate QueueId(qId: nat) { qId % 0x1_0000 >= PORTOFFSET }

  function QIndex(qId: nat): nat
    requires QueueId(qId)
  {
    qId % 0x1_0000 - PORTOFFSET
  }

  // ---------------------------------------------------------------- operations

  /** The larger of the event and the fds of the entries. */
  function MaxOf(event: int, s: seq<Entry>): (m: int)
    ensures IsMax(m, event, s)
  {
    if s == [] then event
    else
      var m := MaxOf(event, s[..|s| - 1]);
      var last := s[|s| - 1].fd;
      assert s == s[..|s| - 1] + [s[|s| - 1]];
      if last > m then last else m
  }

  predicate IsMax(m: int, event: int, s: seq<Entry>) {
    && event <= m && (forall i :: 0 <= i < |s| ==> s[i].fd <= m)
    && (m == event || exists i :: 0 <= i < |s| && s[i].fd == m)
  }

  /** The table grows to hold index k and 32 entries from there on. */
  function Grown(row: seq<int>, k: nat): (r: seq<int>)
    ensures k < |r| && |row| <= |r|
  {
    if k < |row| then row else row + seq(k + GROWSIZE - |row|, _ => -1)
  }

  /** Position of the first entry with that fd, or the length. */
  function FindFd(s: seq<Entry>, fd: int): (i: nat)
    ensures i <= |s| && (i < |s| ==> s[i].fd == fd)
    ensures forall j :: 0 <= j < i ==> s[j].fd != fd
  {
    if s == [] || s[0].fd == fd then 0
    else
      var i := FindFd(s[1..], fd);
      assert forall j :: 1 <= j < i + 1 ==> s[j] == s[1..][j - 1];
      i + 1
  }

  function Without(s: seq<Entry>, fd: int): seq<Entry> {
    var i := FindFd(s, fd);
    if i < |s| then s[..i] + s[i + 1..] else s
  }

  /** The fd queue index k has for processor p, -1 for none or beyond the table. */
  function Bound(t: Tables, p: nat, k: nat): int {
    if p < |t.index| && k < |t.index[p]| then t.index[p][k] else -1
  }

  /** What TransportRpmsg_bind does to the tables once the dispatch thread is parked. */
  function Bind(t: Tables, p: nat, qId: nat, fd: int): Tables
    requires p < |t.index| && QueueId(qId)
  {
    var k := QIndex(qId);
    Tables(t.event, t.inFds + [Entry(fd, qId)], if t.maxFd > fd then t.maxFd else fd, t.rfds + {fd},
           t.index[p := Grown(t.index[p], k)[k := fd]])
  }

  /** What TransportRpmsg_unbind does to the tables once the dispatch thread is parked. */
  function Unbind(t: Tables, p: nat, k: nat): Tables
    requires p < |t.index| && k < |t.index[p]|
  {
    var fd := t.index[p][k];
    if fd == -1 then t
    else
      var inFds := Without(t.inFds, fd);
      Tables(t.event, inFds, if fd == t.maxFd then MaxOf(t.event, inFds) else t.maxFd, t.rfds - {fd},
             t.index[p := t.index[p][k := -1]])
  }

  /** What the dispatch thread does to the tables when a socket reports a shutdown. */
  function Mask(t: Tables, fd: int): Tables {
    t.(rfds := t.rfds - {fd}, maxFd := if fd == t.maxFd then MaxOf(t.event, t.inFds) else t.maxFd)
  }

  /** An unused descriptor the operating system may hand out. */
  predicate Unused(t: Tables, fd: int) {
    0 <= fd < FD_SETSIZE && fd != t.event && FindFd(t.inFds, fd) == |t.inFds|
  }

  // ---------------------------------------------------------------- invariant

  ghost predicate FdsOk(t: Tables) {
    && 0 <= t.event < FD_SETSIZE
    && (forall i :: 0 <= i < |t.inFds| ==>
         0 <= t.inFds[i].fd < FD_SETSIZE && t.inFds[i].fd != t.event && QueueId(t.inFds[i].qId))
    && (forall i, j :: 0 <= i < j < |t.inFds| ==> t.inFds[i].fd != t.inFds[j].fd)
  }

  /** Some entry of the input array is fd for queue index k. */
  ghost predicate Listed(s: seq<Entry>, k: nat, fd: int) {
    exists i :: 0 <= i < |s| && s[i].fd == fd && QueueId(s[i].qId) && QIndex(s[i].qId) == k
  }

  /** Some processor's table has fd at queue index k. */
  ghost predicate Indexed(t: Tables, k: nat, fd: int) {
    exists p: nat :: p < |t.index| && Bound(t, p, k) == fd
  }

  /** The input array and the index tables hold the same bindings. */
  ghost predicate SameBindings(t: Tables) {
    && (forall p: nat, k: nat :: Bound(t, p, k) != -1 ==> Listed(t.inFds, k, Bound(t, p, k)))
    && (forall i :: 0 <= i < |t.inFds| && QueueId(t.inFds[i].qId) ==>
         Indexed(t, QIndex(t.inFds[i].qId), t.inFds[i].fd))
  }

  /** No descriptor is bound twice. */
  ghost predicate Unshared(t: Tables) {
    forall p: nat, k: nat, p': nat, k': nat ::
      Bound(t, p, k) == Bound(t, p', k') && Bound(t, p, k) != -1 ==> p == p' && k == k'
  }

  ghost predicate SelectOk(t: Tables) {
    && IsMax(t.maxFd, t.event, t.inFds)
    && t.event in t.rfds
    && (forall fd :: fd in t.rfds && fd != t.event ==> FindFd(t.inFds, fd) < |t.inFds|)
  }

  ghost predicate Good(t: Tables) {
    FdsOk(t) && SameBindings(t) && Unshared(t) && SelectOk(t)
  }

  /** The tables TransportRpmsg_Factory_create and one create per processor set up. */
  function Fresh(event: int, procs: nat): Tables {
    Tables(event, [], event, {event}, seq(procs, _ => seq(GROWSIZE, _ => -1)))
  }

  lemma FreshGood(event: int, procs: nat)
    requires 0 <= event < FD_SETSIZE
    ensures Good(Fresh(event, procs))
    ensures forall p: nat, k: nat :: Bound(Fresh(event, procs), p, k) == -1
    ensures forall p: nat :: p < procs ==> |Fresh(event, procs).index[p]| == 32
  {
  }

  // ---------------------------------------------------------------- bind

  lemma BindBounds(t: Tables, p: nat, qId: nat, fd: int)
    requires p < |t.index| && QueueId(qId)
    ensures Bound(Bind(t, p, qId, fd), p, QIndex(qId)) == fd
    ensures forall p': nat, k': nat :: p' != p || k' != QIndex(qId) ==>
      Bound(Bind(t, p, qId, fd), p', k') == Bound(t, p', k')
  {
  }

  lemma AddedMax(s: seq<Entry>, e: Entry, m: int, event: int)
    requires IsMax(m, event, s)
    ensures IsMax(if m > e.fd then m else e.fd, event, s + [e])
  {
    var m' := if m > e.fd then m else e.fd;
    assert (s + [e])[|s|].fd == e.fd;
    if m' == m != event {
      var i :| 0 <= i < |s| && s[i].fd == m;
      assert (s + [e])[i].fd == m';
    }
  }

  lemma AddedListed(s: seq<Entry>, e: Entry, x: int)
    requires x == e.fd || FindFd(s, x) < |s|
    ensures FindFd(s + [e], x) < |s + [e]|
  {
    if x == e.fd {
      assert (s + [e])[|s|].fd == x;
    } else {
      assert (s + [e])[FindFd(s, x)].fd == x;
    }
  }

  lemma BindFds(t: Tables, p: nat, qId: nat, fd: int)
    requires p < |t.index| && QueueId(qId) && Unused(t, fd) && FdsOk(t) && SelectOk(t)
    ensures FdsOk(Bind(t, p, qId, fd)) && SelectOk(Bind(t, p, qId, fd))
  {
    var t' := Bind(t, p, qId, fd);
    AddedMax(t.inFds, Entry(fd, qId), t.maxFd, t.event);
    forall x | x in t'.rfds && x != t.event ensures FindFd(t'.inFds, x) < |t'.inFds| {
      AddedListed(t.inFds, Entry(fd, qId), x);
    }
  }

  lemma BindSame(t: Tables, p: nat, qId: nat, fd: int)
    requires p < |t.index| && QueueId(qId) && Unused(t, fd) && Bound(t, p, QIndex(qId)) == -1
    requires FdsOk(t) && SameBindings(t) && Unshared(t)
    ensures SameBindings(Bind(t, p, qId, fd)) && Unshared(Bind(t, p, qId, fd))
  {
    var t' := Bind(t, p, qId, fd);
    BindBounds(t, p, qId, fd);
    forall p': nat, k': nat | Bound(t', p', k') != -1
      ensures Listed(t'.inFds, k', Bound(t', p', k'))
      ensures p' != p || k' != QIndex(qId) ==> Bound(t', p', k') != fd
    {
      if p' == p && k' == QIndex(qId) {
        assert t'.inFds[|t.inFds|] == Entry(fd, qId);
      } else {
        var x := Bound(t, p', k');
        var i :| 0 <= i < |t.inFds| && t.inFds[i].fd == x && QueueId(t.inFds[i].qId) && QIndex(t.inFds[i].qId) == k';
        assert t'.inFds[i] == t.inFds[i];
      }
    }
    forall i | 0 <= i < |t'.inFds| && QueueId(t'.inFds[i].qId)
      ensures Indexed(t', QIndex(t'.inFds[i].qId), t'.inFds[i].fd)
    {
      if i < |t.inFds| {
        var q: nat :| q < |t.index| && Bound(t, q, QIndex(t.inFds[i].qId)) == t.inFds[i].fd;
        assert Bound(t', q, QIndex(t'.inFds[i].qId)) == t'.inFds[i].fd;
      } else {
        assert Bound(t', p, QIndex(qId)) == fd;
      }
    }
  }

  /** THEOREM. Binding an unbound queue for a processor keeps the tables in agreement, binds that queue
    * to the new descriptor, leaves every other binding as it was, also when the index table grows, and
    * makes select watch that descriptor besides those it watched. A table that is too short grows to hold
    * 32 entries from that queue's on. */
  lemma BindKeepsGood(t: Tables, p: nat, qId: nat, fd: int)
    requires Good(t) && p < |t.index| && QueueId(qId) && Bound(t, p, QIndex(qId)) == -1
    requires 0 <= fd < 1024 && fd != t.event && forall i :: 0 <= i < |t.inFds| ==> t.inFds[i].fd != fd
    ensures var t' := Bind(t, p, qId, fd);
      && Good(t') && Bound(t', p, QIndex(qId)) == fd && |t'.index| == |t.index|
      && |t'.index[p]| == (if QIndex(qId) < |t.index[p]| then |t.index[p]| else QIndex(qId) + 32)
      && fd in t'.rfds && fd <= t'.maxFd && (forall x :: x != fd ==> (x in t'.rfds <==> x in t.rfds))
      && (forall p': nat, k': nat :: p' != p || k' != QIndex(qId) ==> Bound(t', p', k') == Bound(t, p', k'))
  {
    BindBounds(t, p, qId, fd);
    BindFds(t, p, qId, fd);
    BindSame(t, p, qId, fd);
  }

  // ---------------------------------------------------------------- unbind

  /** Entry i of what is left was entry i, or i + 1 from the dropped entry on. */
  lemma WithoutAt(s: seq<Entry>, fd: int, i: nat)
    requires FindFd(s, fd) < |s| && i < |s| - 1
    ensures |Without(s, fd)| == |s| - 1
    ensures Without(s, fd)[i] == s[if i < FindFd(s, fd) then i else i + 1]
  {
  }

  /** Entry i other than the dropped one is still there. */
  lemma WithoutKeeps(s: seq<Entry>, fd: int, i: nat)
    requires FindFd(s, fd) < |s| && i < |s| && i != FindFd(s, fd)
    ensures |Without(s, fd)| == |s| - 1
    ensures s[i] == Without(s, fd)[if i < FindFd(s, fd) then i else i - 1]
  {
  }

  lemma WithoutFds(t: Tables, fd: int)
    requires FdsOk(t) && FindFd(t.inFds, fd) < |t.inFds|
    ensures FdsOk(t.(inFds := Without(t.inFds, fd)))
    ensures |Without(t.inFds, fd)| == |t.inFds| - 1
    ensures FindFd(Without(t.inFds, fd), fd) == |t.inFds| - 1
  {
    var r := Without(t.inFds, fd);
    var f := FindFd(t.inFds, fd);
    assert |r| == |t.inFds| - 1;
    forall i | 0 <= i < |r|
      ensures 0 <= r[i].fd < FD_SETSIZE && r[i].fd != t.event && QueueId(r[i].qId) && r[i].fd != fd
    {
      WithoutAt(t.inFds, fd, i);
    }
    forall i, j | 0 <= i < j < |r| ensures r[i].fd != r[j].fd {
      WithoutAt(t.inFds, fd, i);
      WithoutAt(t.inFds, fd, j);
    }
  }

  lemma WithoutMax(s: seq<Entry>, fd: int, m: int, event: int)
    requires FindFd(s, fd) < |s| && fd != m && IsMax(m, event, s)
    ensures IsMax(m, event, Without(s, fd))
  {
    var r := Without(s, fd);
    assert |r| == |s| - 1;
    forall i | 0 <= i < |r| ensures r[i].fd <= m {
      WithoutAt(s, fd, i);
    }
    if m != event {
      var i :| 0 <= i < |s| && s[i].fd == m;
      WithoutKeeps(s, fd, i);
    }
  }

  lemma WithoutOther(s: seq<Entry>, fd: int, x: int)
    requires FindFd(s, fd) < |s| && x != fd && FindFd(s, x) < |s|
    ensures FindFd(Without(s, fd), x) < |Without(s, fd)|
  {
    WithoutKeeps(s, fd, FindFd(s, x));
  }

  lemma UnbindFds(t: Tables, p: nat, k: nat)
    requires p < |t.index| && k < |t.index[p]| && t.index[p][k] != -1
    requires FindFd(t.inFds, t.index[p][k]) < |t.inFds| && FdsOk(t) && SelectOk(t)
    ensures FdsOk(Unbind(t, p, k)) && SelectOk(Unbind(t, p, k))
  {
    var fd := t.index[p][k];
    var t' := Unbind(t, p, k);
    WithoutFds(t, fd);
    if fd != t.maxFd {
      WithoutMax(t.inFds, fd, t.maxFd, t.event);
    }
    forall x | x in t'.rfds && x != t.event ensures FindFd(t'.inFds, x) < |t'.inFds| {
      WithoutOther(t.inFds, fd, x);
    }
  }

  lemma UnbindBounds(t: Tables, p: nat, k: nat)
    requires p < |t.index| && k < |t.index[p]|
    ensures Bound(Unbind(t, p, k), p, k) == -1
    ensures forall p': nat, k': nat :: p' != p || k' != k ==> Bound(Unbind(t, p, k), p', k') == Bound(t, p', k')
  {
  }

  lemma WithoutListed(s: seq<Entry>, fd: int, k: nat, x: int)
    requires FindFd(s, fd) < |s| && x != fd && Listed(s, k, x)
    ensures Listed(Without(s, fd), k, x)
  {
    var i :| 0 <= i < |s| && s[i].fd == x && QueueId(s[i].qId) && QIndex(s[i].qId) == k;
    WithoutKeeps(s, fd, i);
  }

  lemma UnbindListed(t: Tables, p: nat, k: nat)
    requires p < |t.index| && k < |t.index[p]| && t.index[p][k] != -1
    requires FindFd(t.inFds, t.index[p][k]) < |t.inFds| && SameBindings(t) && Unshared(t)
    ensures forall p': nat, k': nat :: Bound(Unbind(t, p, k), p', k') != -1 ==>
      Listed(Unbind(t, p, k).inFds, k', Bound(Unbind(t, p, k), p', k'))
    ensures Unshared(Unbind(t, p, k))
  {
    var fd := t.index[p][k];
    var t' := Unbind(t, p, k);
    UnbindBounds(t, p, k);
    assert Bound(t, p, k) == fd;
    forall p': nat, k': nat | Bound(t', p', k') != -1 ensures Listed(t'.inFds, k', Bound(t', p', k')) {
      WithoutListed(t.inFds, fd, k', Bound(t, p', k'));
    }
  }

  lemma UnbindIndexed(t: Tables, p: nat, k: nat, e: Entry)
    requires p < |t.index| && k < |t.index[p]| && t.index[p][k] != -1
    requires e.fd != t.index[p][k] && QueueId(e.qId) && Indexed(t, QIndex(e.qId), e.fd)
    ensures Indexed(Unbind(t, p, k), QIndex(e.qId), e.fd)
  {
    UnbindBounds(t, p, k);
    var q: nat :| q < |t.index| && Bound(t, q, QIndex(e.qId)) == e.fd;
    assert Bound(t, p, k) == t.index[p][k];
    assert Bound(Unbind(t, p, k), q, QIndex(e.qId)) == e.fd;
  }

  lemma UnbindSame(t: Tables, p: nat, k: nat)
    requires p < |t.index| && k < |t.index[p]| && t.index[p][k] != -1
    requires FindFd(t.inFds, t.index[p][k]) < |t.inFds| && FdsOk(t) && SameBindings(t) && Unshared(t)
    ensures SameBindings(Unbind(t, p, k)) && Unshared(Unbind(t, p, k))
  {
    var fd := t.index[p][k];
    var r := Without(t.inFds, fd);
    UnbindListed(t, p, k);
    WithoutFds(t, fd);
    forall i | 0 <= i < |r| && QueueId(r[i].qId)
      ensures Indexed(Unbind(t, p, k), QIndex(r[i].qId), r[i].fd)
    {
      WithoutAt(t.inFds, fd, i);
      assert FindFd(r, fd) == |r|;
      UnbindIndexed(t, p, k, r[i]);
    }
  }

  /** THEOREM. Unbinding a queue keeps the tables in agreement, takes away that one binding, leaves every
    * other as it was, and makes select stop watching that descriptor only. */
  lemma UnbindKeepsGood(t: Tables, p: nat, k: nat)
    requires Good(t) && p < |t.index| && k < |t.index[p]|
    ensures var t' := Unbind(t, p, k);
      && Good(t') && Bound(t', p, k) == -1
      && (forall p': nat, k': nat :: p' != p || k' != k ==> Bound(t', p', k') == Bound(t, p', k'))
      && (t.index[p][k] != -1 ==> Unused(t', t.index[p][k]) && t.index[p][k] !in t'.rfds)
      && (forall x :: x != t.index[p][k] ==> (x in t'.rfds <==> x in t.rfds))
  {
    UnbindBounds(t, p, k);
    if t.index[p][k] != -1 {
      assert Listed(t.inFds, k, Bound(t, p, k));
      UnbindFds(t, p, k);
      UnbindSame(t, p, k);
      WithoutFds(t, t.index[p][k]);
      assert t.inFds[FindFd(t.inFds, t.index[p][k])].fd == t.index[p][k];
    }
  }

  /** THEOREM. Unbinding undoes binding: every table returns to what it was, the index table at the
    * size it has grown to. */
  lemma UnbindUndoesBind(t: Tables, p: nat, qId: nat, fd: int)
    requires Good(t) && p < |t.index| && QueueId(qId) && Unused(t, fd) && Bound(t, p, QIndex(qId)) == -1
    ensures Unbind(Bind(t, p, qId, fd), p, QIndex(qId)) ==
            t.(index := t.index[p := Grown(t.index[p], QIndex(qId))])
  {
    var k := QIndex(qId);
    var b := Bind(t, p, qId, fd);
    assert FindFd(b.inFds, fd) == |t.inFds| by {
      assert b.inFds[|t.inFds|].fd == fd;
    }
    assert Without(b.inFds, fd) == t.inFds;
    assert b.rfds - {fd} == t.rfds;
    assert Grown(t.index[p], k)[k := fd][k := -1] == Grown(t.index[p], k);
    assert b.index[p := Grown(t.index[p], k)] == t.index[p := Grown(t.index[p], k)];
  }

  // ---------------------------------------------------------------- dispatcher shutdown, capacity

  lemma MaxUnique(m: int, m': int, event: int, s: seq<Entry>)
    requires IsMax(m, event, s) && IsMax(m', event, s)
    ensures m == m'
  {
  }

  lemma MaskBindings(t: Tables, t': Tables)
    requires SameBindings(t) && t'.inFds == t.inFds && t'.index == t.index
    ensures SameBindings(t')
  {
    assert forall p: nat, k: nat :: Bound(t', p, k) == Bound(t, p, k);
    forall i | 0 <= i < |t.inFds| && QueueId(t.inFds[i].qId)
      ensures Indexed(t', QIndex(t.inFds[i].qId), t.inFds[i].fd)
    {
      assert Indexed(t, QIndex(t.inFds[i].qId), t.inFds[i].fd);
    }
  }

  /** THEOREM. When the dispatch thread masks a descriptor that was shut down, the tables stay in
    * agreement, all bindings stay, and the largest descriptor does not change. */
  lemma MaskKeepsGood(t: Tables, fd: int)
    requires Good(t) && fd != t.event
    ensures Good(Mask(t, fd)) && Mask(t, fd).maxFd == t.maxFd
    ensures forall x :: x in Mask(t, fd).rfds <==> x in t.rfds && x != fd
    ensures forall p: nat, k: nat :: Bound(Mask(t, fd), p, k) == Bound(t, p, k)
  {
    var t' := Mask(t, fd);
    MaxUnique(t.maxFd, MaxOf(t.event, t.inFds), t.event, t.inFds);
    assert t' == t.(rfds := t.rfds - {fd});
    MaskBindings(t, t');
    assert forall p: nat, k: nat :: Bound(t', p, k) == Bound(t, p, k);
    assert Unshared(t');
  }

  lemma {:induction false} DistinctBelow(s: seq<Entry>, taken: set<int>, n: nat)
    requires forall x :: x in taken ==> 0 <= x < n
    requires forall i :: 0 <= i < |s| ==> 0 <= s[i].fd < n && s[i].fd !in taken
    requires forall i, j :: 0 <= i < j < |s| ==> s[i].fd != s[j].fd
    ensures |s| + |taken| <= n
  {
    if s == [] {
      SubsetOfRange(taken, n);
    } else {
      DistinctBelow(s[1..], taken + {s[0].fd}, n);
    }
  }

  lemma {:induction false} SubsetOfRange(a: set<int>, n: nat)
    requires forall x :: x in a ==> 0 <= x < n
    ensures |a| <= n
  {
    if n == 0 {
      assert forall x :: x !in a;
    } else {
      SubsetOfRange(a - {n - 1}, n - 1);
    }
  }

  /** THEOREM. With descriptors below FD_SETSIZE the input array has room for the next entry. */
  lemma RoomForNext(t: Tables, fd: int)
    requires Good(t) && Unused(t, fd)
    ensures |t.inFds| + 2 <= 1024
  {
    DistinctBelow(t.inFds, {t.event, fd}, FD_SETSIZE);
  }

  // ---------------------------------------------------------------- runs

  datatype Op = BindOp(p: nat, qId: nat, fd: int) | UnbindOp(p: nat, k: nat) | MaskOp(i: nat)

  /** What can happen next: binding only what is unbound, to a descriptor that is not in use; unbinding
    * inside the index table; masking the descriptor of some entry. */
  predicate Can(t: Tables, op: Op) {
    match op
    case BindOp(p, qId, fd) =>
      p < |t.index| && QueueId(qId) && Unused(t, fd) && Bound(t, p, QIndex(qId)) == -1
    case UnbindOp(p, k) => p < |t.index| && k < |t.index[p]|
    case MaskOp(i) => i < |t.inFds|
  }

  function Do(t: Tables, op: Op): Tables
    requires Can(t, op)
  {
    match op
    case BindOp(p, qId, fd) => Bind(t, p, qId, fd)
    case UnbindOp(p, k) => Unbind(t, p, k)
    case MaskOp(i) => Mask(t, t.inFds[i].fd)
  }

  ghost predicate Reaches(t: Tables, ops: seq<Op>, t': Tables)
    decreases |ops|
  {
    if ops == [] then t' == t
    else
      var last := |ops| - 1;
      exists u :: Reaches(t, ops[..last], u) && Can(u, ops[last]) && t' == Do(u, ops[last])
  }

  /** THEOREM. In every state any sequence of binds, unbinds and shutdowns leads to, the four tables
    * agree and the input array has not overflowed. */
  lemma {:induction false} EveryStateGood(event: int, procs: nat, ops: seq<Op>, t: Tables)
    requires 0 <= event < FD_SETSIZE && Reaches(Fresh(event, procs), ops, t)
    ensures Good(t) && |t.inFds| < 1024
    decreases |ops|
  {
    if ops == [] {
      FreshGood(event, procs);
    } else {
      var last := |ops| - 1;
      var u :| Reaches(Fresh(event, procs), ops[..last], u) && Can(u, ops[last]) && t == Do(u, ops[last]);
      EveryStateGood(event, procs, ops[..last], u);
      StepKeepsGood(u, ops[last]);
    }
    NotOverflowed(t);
  }

  /** The descriptor that the last bind of queue index k for processor p gave it, -1 when it was unbound
    * since or never bound. */
  function LastFd(ops: seq<Op>, p: nat, k: nat): int {
    if ops == [] then -1
    else
      var last := ops[|ops| - 1];
      if last.BindOp? && last.p == p && last.qId % 0x1_0000 == k + 0x80 then last.fd
      else if last == UnbindOp(p, k) then -1
      else LastFd(ops[..|ops| - 1], p, k)
  }

  /** THEOREM. After any run, a queue has for a processor the descriptor that its last bind gave it, and
    * none when it was unbound since or never bound; the dispatch thread's masking makes no difference. */
  lemma {:induction false} LastBindHolds(event: int, procs: nat, ops: seq<Op>, t: Tables, p: nat, k: nat)
    requires 0 <= event < FD_SETSIZE && Reaches(Fresh(event, procs), ops, t)
    ensures Bound(t, p, k) == LastFd(ops, p, k)
    decreases |ops|
  {
    if ops == [] {
      FreshGood(event, procs);
    } else {
      var last := |ops| - 1;
      var u :| Reaches(Fresh(event, procs), ops[..last], u) && Can(u, ops[last]) && t == Do(u, ops[last]);
      LastBindHolds(event, procs, ops[..last], u, p, k);
      match ops[last]
      case BindOp(q, qId, fd) => BindBounds(u, q, qId, fd);
      case UnbindOp(q, j) => UnbindBounds(u, q, j);
      case MaskOp(_) =>
    }
  }

  /** THEOREM. And select starts to watch exactly the descriptor bound, and stops to watch exactly the one
    * unbound or shut down. */
  lemma StepWatches(event: int, procs: nat, ops: seq<Op>, t: Tables, op: Op, fd: int)
    requires 0 <= event < FD_SETSIZE && Reaches(Fresh(event, procs), ops, t) && Can(t, op)
    ensures op.BindOp? ==> (fd in Do(t, op).rfds <==> fd in t.rfds || fd == op.fd)
    ensures op.UnbindOp? ==> (fd in Do(t, op).rfds <==> fd in t.rfds && fd != LastFd(ops, op.p, op.k))
    ensures op.MaskOp? ==> (fd in Do(t, op).rfds <==> fd in t.rfds && fd != t.inFds[op.i].fd)
  {
    EveryStateGood(event, procs, ops, t);
    match op
    case BindOp(p, qId, x) => BindKeepsGood(t, p, qId, x);
    case UnbindOp(p, k) =>
      UnbindKeepsGood(t, p, k);
      LastBindHolds(event, procs, ops, t, p, k);
    case MaskOp(i) => MaskKeepsGood(t, t.inFds[i].fd);
  }

  lemma NotOverflowed(t: Tables)
    requires Good(t)
    ensures |t.inFds| < 1024
  {
    DistinctBelow(t.inFds, {t.event}, FD_SETSIZE);
  }

  lemma StepKeepsGood(t: Tables, op: Op)
    requires Good(t) && Can(t, op)
    ensures Good(Do(t, op))
  {
    match op
    case BindOp(p, qId, fd) => BindKeepsGood(t, p, qId, fd);
    case UnbindOp(p, k) => UnbindKeepsGood(t, p, k);
    case MaskOp(i) => MaskKeepsGood(t, t.inFds[i].fd);
  }
}
