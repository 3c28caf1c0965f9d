/** The client's MessageQ module as it is updated in place under its gate: the array of queues, the
  * registered transports, and the scans that bind and unbind queues. Each method is one critical
  * section of QueueBinding. */
module MessageQClient {
  import QB = QueueBinding

  class MessageQModule {
    /** queues[q]: there is a queue of index q. */
    var queues: array<bool>
    /** transports[p]: processor p has a transport. */
    const transports: array<bool>
    /** The transports' index tables, and the sockets they have open. */
    var table: set<(nat, nat)>
    var sockets: multiset<(nat, nat)>

    ghost predicate Inv()
      reads this
    {
      sockets == multiset(table) && queues != transports
    }

    constructor (transports: array<bool>)
      ensures Inv() && fresh(queues) && queues[..] == [] && table == {} && this.transports == transports
    {
      this.transports := transports;
      queues := new bool[0];
      table, sockets := {}, multiset{};
    }

    method BindOne(p: nat, q: nat)
      requires Inv()
      modifies `table, `sockets
      ensures Inv() && table == old(table) + {(p, q)}
    {
      if (p, q) !in table {
        assert multiset(table + {(p, q)}) == multiset(table) + multiset{(p, q)};
        table := table + {(p, q)};
        sockets := sockets + multiset{(p, q)};
      }
    }

    method UnbindOne(p: nat, q: nat)
      requires Inv()
      modifies `table, `sockets
      ensures Inv() && table == old(table) - {(p, q)}
    {
      if (p, q) in table {
        assert multiset(table) == multiset(table - {(p, q)}) + multiset{(p, q)};
        table := table - {(p, q)};
        sockets := sockets - multiset{(p, q)};
      }
    }

    /** MessageQ_bind: every existing queue is bound to the processor, if it has a transport. */
    method Bind(p: nat)
      requires Inv() && p < transports.Length
      modifies `table, `sockets
      ensures Inv()
      ensures forall x: nat, y: nat :: (x, y) in table <==>
        (x, y) in old(table) || (x == p && transports[p] && y < queues.Length && queues[y])
    {
      var q := 0;
      while q < queues.Length
        invariant q <= queues.Length && Inv()
        invariant forall x: nat, y: nat :: (x, y) in table <==>
          (x, y) in old(table) || (x == p && transports[p] && y < q && queues[y])
      {
        if queues[q] && transports[p] {
          BindOne(p, q);
        }
        q := q + 1;
      }
    }

    /** MessageQ_unbind: every existing queue is unbound from the processor, if it has a transport. */
    method Unbind(p: nat)
      requires Inv() && p < transports.Length
      modifies `table, `sockets
      ensures Inv()
      ensures forall x: nat, y: nat :: (x, y) in table <==>
        (x, y) in old(table) && !(x == p && transports[p] && y < queues.Length && queues[y])
    {
      var q := 0;
      while q < queues.Length
        invariant q <= queues.Length && Inv()
        invariant forall x: nat, y: nat :: (x, y) in table <==>
          (x, y) in old(table) && !(x == p && transports[p] && y < q && queues[y])
      {
        if queues[q] && transports[p] {
          UnbindOne(p, q);
        }
        q := q + 1;
      }
    }

    method BindToAll(q: nat)
      requires Inv()
      modifies `table, `sockets
      ensures Inv()
      ensures forall x: nat, y: nat :: (x, y) in table <==>
        (x, y) in old(table) || (y == q && x < transports.Length && transports[x])
    {
      var p := 0;
      while p < transports.Length
        invariant p <= transports.Length && Inv()
        invariant forall x: nat, y: nat :: (x, y) in table <==>
          (x, y) in old(table) || (y == q && x < p && transports[x])
      {
        if transports[p] {
          BindOne(p, q);
        }
        p := p + 1;
      }
    }

    /** _MessageQ_grow */
    method Grow(q: nat)
      requires queues.Length <= q && queues != transports
      modifies `queues
      ensures queues[..] == QB.Grown(old(queues[..]), q, false) && fresh(queues)
    {
      var larger := new bool[q + QB.GROWSIZE](_ => false);
      var was := queues;
      var i := 0;
      while i < was.Length
        invariant i <= was.Length && larger[..i] == was[..i]
        invariant forall j :: i <= j < larger.Length ==> !larger[j]
        modifies larger
      {
        larger[i] := was[i];
        i := i + 1;
      }
      queues := larger;
      assert queues[..] == QB.Grown(was[..], q, false);
    }

    /** The part of MessageQ_create under the gate: the queue is bound to every registered transport and
      * only then entered in the array. */
    method Create(q: nat)
      requires Inv()
      modifies this, queues
      ensures Inv() && queues[..] == QB.Grown(old(queues[..]), q, false)[q := true]
      ensures forall x: nat, y: nat :: (x, y) in table <==>
        (x, y) in old(table) || (y == q && x < transports.Length && transports[x])
    {
      BindToAll(q);
      ghost var on := transports[..];
      if q >= queues.Length {
        Grow(q);
      }
      queues[q] := true;
      assert transports[..] == on;
    }

    /** The part of MessageQ_delete under the gate. */
    method Delete(q: nat)
      requires Inv() && q < queues.Length
      modifies this, queues
      ensures Inv() && queues == old(queues) && queues[..] == old(queues[..])[q := false]
      ensures forall x: nat, y: nat :: (x, y) in table <==>
        (x, y) in old(table) && !(y == q && x < transports.Length && transports[x])
    {
      var p := 0;
      while p < transports.Length
        invariant p <= transports.Length && Inv() && queues == old(queues) && queues[..] == old(queues[..])
        invariant transports[..] == old(transports[..])
        invariant forall x: nat, y: nat :: (x, y) in table <==>
          (x, y) in old(table) && !(y == q && x < p && transports[x])
      {
        if transports[p] {
          UnbindOne(p, q);
        }
        p := p + 1;
      }
      queues[q] := false;
      assert transports[..] == old(transports[..]);
    }
  }
}
