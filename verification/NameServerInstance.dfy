/** A name server instance as objects: a list of table nodes, some with nodes chained behind them, that
  * add, remove, removeEntry and delete change in place, against the table value of NameTable. */
module NameServerInstance {
  import opened Counting
  import opened StringHash
  import NT = NameTable

  class Node {
    const hash: bv32
    const name: Name
    const value: NT.Bytes
    const collide: bool
    /** The nodes reached through the next pointer, nearest first. */
    var chain: seq<Node>

    constructor (hash: bv32, name: Name, value: NT.Bytes, collide: bool)
      ensures this.hash == hash && this.name == name && this.value == value && this.collide == collide
      ensures chain == []
    {
      this.hash, this.name, this.value, this.collide, chain := hash, name, value, collide, [];
    }

    ghost function Entry(): NT.Entry {
      NT.Entry(hash, name, value)
    }
  }

  class NameServer {
    var nameList: seq<Node>
    var count: nat
    const maxNameLen: nat
    const maxValueLen: nat
    const checkExisting: bool

    ghost function RowOf(n: Node): NT.Row
      reads n
    {
      NT.Row(n.Entry(), seq(|n.chain|, k requires 0 <= k < |n.chain| reads n => n.chain[k].Entry()))
    }

    ghost function Rows(): (rows: seq<NT.Row>)
      reads this, nameList
      ensures |rows| == |nameList| && forall i :: 0 <= i < |rows| ==> rows[i] == RowOf(nameList[i])
    {
      seq(|nameList|, i requires 0 <= i < |nameList| reads this, nameList => RowOf(nameList[i]))
    }

    ghost function View(): NT.Table
      reads this, nameList
    {
      NT.Table(Rows(), count, maxNameLen, maxValueLen, checkExisting)
    }

    /** Only nodes behind another one are ever marked as colliding, never a node of the list itself. */
    ghost predicate Inv()
      reads this, nameList
    {
      && count >= |nameList|
      && (forall i :: 0 <= i < |nameList| ==> !nameList[i].collide)
      && (forall i, j :: 0 <= i < j < |nameList| ==> nameList[i] != nameList[j])
    }

    constructor (maxNameLen: nat, maxValueLen: nat, checkExisting: bool)
      ensures Inv() && View() == NT.Table([], 0, maxNameLen, if maxValueLen < 4 then 4 else maxValueLen, checkExisting)
    {
      this.maxNameLen := maxNameLen;
      this.maxValueLen := if maxValueLen < 4 then 4 else maxValueLen;
      this.checkExisting := checkExisting;
      nameList, count := [], 0;
    }

    /** The scan of an add: dup when the name is there and duplicates are refused, found when an entry
      * of another name has the hash. */
    method ScanForAdd(hash: bv32, name: Name) returns (i: nat, dup: bool, found: bool)
      requires Inv()
      ensures i == NT.AddStop(Rows(), hash, name, checkExisting)
      ensures dup == (i < |nameList| && nameList[i].name == name)
      ensures found == (i < |nameList| && nameList[i].name != name)
    {
      i, dup, found := 0, false, false;
      while i < |nameList|
        invariant i <= |nameList| && !dup && !found
        invariant forall j :: 0 <= j < i && Rows()[j].entry.hash == hash ==>
          Rows()[j].entry.name == name && !checkExisting
      {
        if nameList[i].hash == hash {
          if nameList[i].name == name {
            if checkExisting {
              dup := true;
              break;
            }
          } else {
            found := true;
            break;
          }
        }
        i := i + 1;
      }
      assert NT.AddStop(Rows(), hash, name, checkExisting) >= i ==> NT.AddStop(Rows(), hash, name, checkExisting) == i;
    }

    method Add(name: Name, value: NT.Bytes) returns (node: Node?)
      requires Inv()
      modifies this, nameList
      ensures Inv()
      ensures (View(), node != null) == NT.Add(old(View()), name, value)
    {
      var hash := ComputeHash(name);
      if |name| > NT.NameLimit(maxNameLen) || |value| > maxValueLen {
        return null;
      }
      node := AddEntry(hash, name, value);
    }

    method AddEntry(hash: bv32, name: Name, value: NT.Bytes) returns (node: Node?)
      requires Inv()
      modifies this, nameList
      ensures Inv()
      ensures (View(), node != null) == NT.Enter(old(View()), NT.Entry(hash, name, value))
    {
      var i, dup, found := ScanForAdd(hash, name);
      if dup {
        return null;
      }
      NT.EnterAt(View(), NT.Entry(hash, name, value), i);
      node := EnterNew(hash, name, value, i, found);
    }

    method EnterNew(hash: bv32, name: Name, value: NT.Bytes, i: nat, found: bool) returns (node: Node)
      requires Inv() && i <= |nameList| && found == (i < |nameList|)
      modifies this, nameList
      ensures Inv() && count == old(count) + 1
      ensures var e := NT.Entry(hash, name, value);
        Rows() ==
        if found then old(Rows())[i := NT.Row(old(Rows()[i].entry), [e] + old(Rows()[i].chain))]
        else [NT.Row(e, [])] + old(Rows())
    {
      ghost var rows := Rows();
      node := new Node(hash, name, value, found);
      assert Rows() == rows;
      Enter(i, node);
    }

    /** Stitches a colliding node behind node i, puts any other first. */
    method Enter(i: nat, node: Node)
      requires Inv() && i <= |nameList| && node !in nameList && node.chain == []
      requires node.collide == (i < |nameList|)
      modifies this, nameList
      ensures Inv() && count == old(count) + 1
      ensures Rows() ==
        if i < old(|nameList|) then old(Rows())[i := NT.Row(old(Rows()[i].entry), [node.Entry()] + old(Rows()[i].chain))]
        else [NT.Row(node.Entry(), [])] + old(Rows())
    {
      if node.collide {
        Chain(i, node);
      } else {
        PutFirst(node);
      }
    }

    method Chain(i: nat, node: Node)
      requires Inv() && i < |nameList|
      modifies `count, nameList[i]
      ensures Inv() && count == old(count) + 1
      ensures Rows() == old(Rows())[i := NT.Row(old(Rows()[i].entry), [node.Entry()] + old(Rows()[i].chain))]
    {
      ghost var rows := Rows();
      var head := nameList[i];
      head.chain := [node] + head.chain;
      count := count + 1;
      assert RowOf(head).chain == [node.Entry()] + rows[i].chain;
      assert forall j :: 0 <= j < |nameList| && j != i ==> Rows()[j] == rows[j];
    }

    method PutFirst(node: Node)
      requires Inv() && node !in nameList && !node.collide && node.chain == []
      modifies `nameList, `count
      ensures Inv() && count == old(count) + 1
      ensures Rows() == [NT.Row(node.Entry(), [])] + old(Rows())
    {
      ghost var list, rows := nameList, Rows();
      assert RowOf(node) == NT.Row(node.Entry(), []);
      nameList := [node] + nameList;
      count := count + 1;
      forall j | 0 <= j < |nameList| ensures Rows()[j] == ([NT.Row(node.Entry(), [])] + rows)[j] {
        if j > 0 {
          assert nameList[j] == list[j - 1] && Rows()[j] == RowOf(nameList[j]);
        }
      }
    }

    method FindNode(hash: bv32) returns (i: nat)
      ensures i == NT.FindHash(Rows(), hash)
    {
      i := 0;
      while i < |nameList|
        invariant i <= |nameList|
        invariant forall j :: 0 <= j < i ==> Rows()[j].entry.hash != hash
      {
        if nameList[i].hash == hash {
          break;
        }
        i := i + 1;
      }
      assert NT.FindHash(Rows(), hash) >= i ==> NT.FindHash(Rows(), hash) == i;
    }

    /** NameServer_removeEntry on the node at position i of the list. */
    method RemoveEntry(i: nat)
      requires Inv() && i < |nameList|
      modifies this
      ensures Inv() && View() == NT.RemoveRow(old(View()), i)
      ensures nameList == old(nameList[..i]) + old(nameList[i + 1..])
    {
      ghost var rows := Rows();
      nameList := nameList[..i] + nameList[i + 1..];
      count := count - 1;
      assert Rows() == rows[..i] + rows[i + 1..];
    }

    method Remove(name: Name) returns (ok: bool)
      requires Inv()
      modifies this
      ensures Inv() && (View(), ok) == NT.Remove(old(View()), name)
    {
      var hash := ComputeHash(name);
      var i := FindNode(hash);
      if i == |nameList| {
        return false;
      }
      if nameList[i].collide {
        // the branch for a colliding list node is never taken
        assert false;
      }
      RemoveEntry(i);
      ok := true;
    }

    method GetLocal(name: Name, length: nat) returns (value: Option<NT.Bytes>)
      requires Inv()
      ensures value == NT.GetLocal(View(), name, length)
    {
      var hash := ComputeHash(name);
      var i := FindNode(hash);
      if i == |nameList| {
        return None;
      }
      var node := nameList[i];
      if node.collide {
        // the branch for a colliding list node is never taken
        assert false;
      }
      return Some(if length <= |node.value| then node.value[..length] else node.value);
    }

    /** The loop of NameServer_delete. */
    method Delete()
      requires Inv()
      modifies this
      ensures Inv() && View() == NT.RemoveAll(old(View()))
    {
      while nameList != []
        invariant Inv() && NT.RemoveAll(View()) == old(NT.RemoveAll(View()))
        decreases |nameList|
      {
        RemoveEntry(0);
      }
    }
  }
}
