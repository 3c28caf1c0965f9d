/** The symbol table object of an RcmServer: the array scans of addSymbol, removeSymbol, getSymIdx_P,
  * getFxnAddr_P and getNextKey_P, against the table value of RcmSymbols. */
module RcmSymbolStore {
  import opened Counting
  import opened RcmSymbols

  /** fxnTab[i - 1] is dynamic table i; tables past the end are not allocated. */
  class SymbolTable {
    const statics: seq<Slot>
    var fxnTab: seq<array<Slot>>
    var key: nat

    ghost function Rows(): (rows: seq<seq<Slot>>)
      reads this, fxnTab
      ensures |rows| == |fxnTab| && forall i :: 0 <= i < |rows| ==> rows[i] == fxnTab[i][..]
    {
      seq(|fxnTab|, i requires 0 <= i < |fxnTab| reads this, fxnTab => fxnTab[i][..])
    }

    ghost function View(): Table
      reads this, fxnTab
    {
      Table(statics, Rows(), key)
    }

    ghost predicate Inv()
      reads this, fxnTab
    {
      && Valid(View())
      && Apart()
    }

    ghost predicate Apart()
      reads `fxnTab
    {
      forall i, j :: 0 <= i < j < |fxnTab| ==> fxnTab[i] != fxnTab[j]
    }

    constructor (statics: seq<Slot>)
      requires |statics| <= 0x10000 && forall j :: 0 <= j < |statics| ==> statics[j].name.Some?
      ensures Inv() && View() == Table(statics, [], 0)
    {
      this.statics := statics;
      fxnTab := [];
      key := 0;
    }

    method GetNextKey() returns (k: nat)
      modifies `key
      ensures k == key == NextKey(old(key))
    {
      if key <= 1 {
        key := KEY_RESET;
      } else {
        key := key - 1;
      }
      k := key;
    }

    method ScanFree(tab: array<Slot>) returns (j: nat)
      ensures j == FirstFree(tab[..])
    {
      j := 0;
      while j < tab.Length
        invariant j <= tab.Length
        invariant forall k :: 0 <= k < j ==> tab[k].addr != 0
      {
        if tab[j].addr == 0 {
          break;
        }
        j := j + 1;
      }
      assert FirstFree(tab[..]) >= j ==> FirstFree(tab[..]) == j;
    }

    /** The first allocated table with a free slot and the slot, or the first table not allocated. */
    method FindRoom() returns (i: nat, j: nat)
      ensures i == FirstRoom(Rows()) + 1
      ensures j == if i - 1 < |fxnTab| then FirstFree(Rows()[i - 1]) else 0
    {
      i := 1;
      while i - 1 < |fxnTab|
        invariant 1 <= i <= |fxnTab| + 1
        invariant forall k :: 0 <= k < i - 1 ==> FirstFree(Rows()[k]) == |Rows()[k]|
      {
        j := ScanFree(fxnTab[i - 1]);
        if j < fxnTab[i - 1].Length {
          assert FirstRoom(Rows()) >= i - 1 ==> FirstRoom(Rows()) == i - 1;
          return;
        }
        i := i + 1;
      }
      j := 0;
    }

    /** The first table with a free slot, allocated if all tables so far are taken. */
    method FindSlot() returns (i: nat, j: nat)
      requires Inv()
      modifies `fxnTab
      ensures old(fxnTab) <= fxnTab && fresh(fxnTab[|old(fxnTab)|..])
      ensures i <= MAX_TABLES && (i == MAX_TABLES <==> old(Full(View())))
      ensures i == MAX_TABLES ==> fxnTab == old(fxnTab)
      ensures i < MAX_TABLES ==> Inv() && i == FirstRoom(old(Rows())) + 1 && Rows() == Roomy(old(View()))
      ensures i < MAX_TABLES ==> i <= |fxnTab| && j == FirstFree(Rows()[i - 1]) < fxnTab[i - 1].Length
    {
      i, j := FindRoom();
      if i == |fxnTab| + 1 && i < MAX_TABLES {
        Allocate(i);
      }
    }

    method Allocate(i: nat)
      requires Inv() && i == |fxnTab| + 1 < MAX_TABLES && FirstRoom(Rows()) == |fxnTab|
      modifies `fxnTab
      ensures old(fxnTab) < fxnTab && |fxnTab| == i && fresh(fxnTab[i - 1])
      ensures Inv() && Rows() == old(Rows()) + [NewRow(i)] && FirstFree(NewRow(i)) == 0 < |NewRow(i)|
    {
      var tab := new Slot[TableLen(i)](_ => FREE);
      TableLenPositive(i);
      assert tab[..] == NewRow(i);
      ghost var t := View();
      NewRowKeepsValid(t);
      fxnTab := fxnTab + [tab];
      assert Rows() == t.dyn + [NewRow(i)];
    }

    /** Fills slot (i, j) under the next key. */
    method Fill(i: nat, j: nat, name: string, addr: nat) returns (index: nat)
      requires Inv() && 1 <= i <= |fxnTab| && j < fxnTab[i - 1].Length
      modifies `key, fxnTab[i - 1]
      ensures View() == Table(statics, SetSlot(old(Rows()), i - 1, j, Slot(Some(name), addr, key)), NextKey(old(key)))
      ensures index == Encode(key, i, j)
    {
      ghost var rows := Rows();
      var k := GetNextKey();
      fxnTab[i - 1][j] := Slot(Some(name), addr, k);
      assert Rows() == SetSlot(rows, i - 1, j, Slot(Some(name), addr, k));
      index := Encode(k, i, j);
    }

    /** RcmServer_addSymbol */
    method AddSymbol(name: string, addr: nat) returns (index: Option<nat>)
      requires Inv()
      modifies this, fxnTab
      ensures (View(), index) == Add(old(View()), name, addr)
      ensures Inv()
      ensures old(fxnTab) <= fxnTab && fresh(fxnTab[|old(fxnTab)|..])
    {
      ghost var t := View();
      index := EnterSymbol(name, addr);
      AddKeepsValid(t, name, addr);
    }

    method EnterSymbol(name: string, addr: nat) returns (index: Option<nat>)
      requires Inv()
      modifies this, fxnTab
      ensures (View(), index) == Add(old(View()), name, addr) && Apart()
      ensures old(fxnTab) <= fxnTab && fresh(fxnTab[|old(fxnTab)|..])
    {
      var i, j := FindSlot();
      if i == MAX_TABLES {
        return None;
      }
      ghost var tab := fxnTab[i - 1];
      assert tab in old(fxnTab) || fresh(tab) by {
        if i - 1 < |old(fxnTab)| {
          assert tab == old(fxnTab)[i - 1];
        } else {
          assert tab in fxnTab[|old(fxnTab)|..];
        }
      }
      var k := Fill(i, j, name, addr);
      index := Some(k);
      assert (View(), index) == Add(old(View()), name, addr);
    }

    method ScanName(row: seq<Slot>, name: string) returns (j: nat)
      ensures j == FindName(row, name)
    {
      j := 0;
      while j < |row|
        invariant j <= |row|
        invariant forall k :: 0 <= k < j ==> row[k].name != Some(name)
      {
        if row[j].name == Some(name) {
          break;
        }
        j := j + 1;
      }
      assert FindName(row, name) >= j ==> FindName(row, name) == j;
    }

    /** The first dynamic table with a slot of that name and the slot, or the first table not allocated. */
    method FindEntry(name: string) returns (i: nat, j: nat)
      ensures i == FindTable(Rows(), name) + 1
      ensures j == if i - 1 < |fxnTab| then FindName(Rows()[i - 1], name) else 0
    {
      i := 1;
      while i - 1 < |fxnTab|
        invariant 1 <= i <= |fxnTab| + 1
        invariant forall k :: 0 <= k < i - 1 ==> FindName(Rows()[k], name) == |Rows()[k]|
      {
        j := ScanName(fxnTab[i - 1][..], name);
        if j < fxnTab[i - 1].Length {
          assert FindTable(Rows(), name) >= i - 1 ==> FindTable(Rows(), name) == i - 1;
          return;
        }
        i := i + 1;
      }
      j := 0;
    }

    method GetSymIdx(name: string) returns (index: Option<nat>)
      ensures index == SymIdx(View(), name)
    {
      var j := ScanName(statics, name);
      if j < |statics| {
        return Some(0x8000_0000 + j);
      }
      var i;
      i, j := FindEntry(name);
      index := if i - 1 < |fxnTab| then Some(Encode(fxnTab[i - 1][j].key, i, j)) else None;
    }

    method RemoveSymbol(name: string) returns (r: Removal)
      requires Inv()
      modifies fxnTab
      ensures Inv()
      ensures (View(), r) == Remove(old(View()), name)
    {
      ghost var t := View();
      RemoveKeepsValid(t, name);
      var found := GetSymIdx(name);
      if found.None? {
        return NotFound;
      }
      FoundDecodes(t, name);
      if IsStatic(found.value) {
        return StaticSymbol;
      }
      var i, j := TableOf(found.value), OffsetOf(found.value);
      ClearSlot(i, j);
      r := Removed;
    }

    method ClearSlot(i: nat, j: nat)
      requires Inv() && 1 <= i <= |fxnTab| && j < fxnTab[i - 1].Length
      modifies fxnTab[i - 1]
      ensures Rows() == SetSlot(old(Rows()), i - 1, j, FREE)
    {
      ghost var rows := Rows();
      fxnTab[i - 1][j] := FREE;
      assert Rows() == SetSlot(rows, i - 1, j, FREE);
    }

    /** RcmServer_getFxnAddr_P: beyond is what a read past the end of the table gives. */
    method GetFxnAddr(idx: nat, beyond: Slot) returns (r: Lookup)
      requires Inv()
      ensures r == if InTable(View(), idx) then FxnAddr(View(), idx) else Resolve(idx, beyond)
    {
      if IsStatic(idx) {
        var j := idx % 0x1_0000;
        if j >= |statics| {
          return Invalid;
        }
        return if j == 0 then CreateFxn(statics[j].addr) else MsgFxn(statics[j].addr);
      }
      var i := TableOf(idx);
      if i == 0 || i >= MAX_TABLES || i > |fxnTab| {
        return Invalid;
      }
      var j := OffsetOf(idx);
      var slot := if j < fxnTab[i - 1].Length then fxnTab[i - 1][j] else beyond;
      if KeyOf(idx) != slot.key {
        return Invalid;
      }
      return if j == 0 then CreateFxn(0) else MsgFxn(slot.addr);
    }
  }

  /** The index getSymIdx_P finds decodes to the slot it was found in, so removeSymbol clears that one. */
  lemma FoundDecodes(t: Table, name: string)
    requires Valid(t) && SymIdx(t, name).Some?
    ensures IsStatic(SymIdx(t, name).value) <==> FindName(t.statics, name) < |t.statics|
    ensures !IsStatic(SymIdx(t, name).value) ==>
      && FindTable(t.dyn, name) < |t.dyn|
      && TableOf(SymIdx(t, name).value) == FindTable(t.dyn, name) + 1
      && OffsetOf(SymIdx(t, name).value) == FindName(t.dyn[FindTable(t.dyn, name)], name)
  {
    if FindName(t.statics, name) < |t.statics| {
      assert IsStatic(SymIdx(t, name).value);
    } else {
      var i := FindTable(t.dyn, name);
      var j := FindName(t.dyn[i], name);
      assert SlotOk(t.dyn[i][j]);
      RowFits(i + 1);
      DecodeEncode(t.dyn[i][j].key, i + 1, j);
    }
  }
}
