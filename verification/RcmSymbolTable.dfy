/** The function table of an RcmServer as a value: a static table and up to eight dynamic tables of
  * doubling length, and the cyclic key that is packed into every dynamic index. */
module RcmSymbols {
  import opened Counting

  const MAX_TABLES: nat := 9
  const KEY_RESET: nat := 0x7FF

  /** A slot of address 0 is taken for free when a symbol is added, also when it has a name. */
  datatype Slot = Slot(name: Option<string>, addr: nat, key: nat)

  const FREE: Slot := Slot(None, 0, 0)

  /** dyn[t - 1] is dynamic table t; tables past the end are not allocated yet. */
  datatype Table = Table(statics: seq<Slot>, dyn: seq<seq<Slot>>, key: nat)

  /** 1 << (i + 4) */
  function TableLen(i: nat): nat {
    if i == 0 then 16 else 2 * TableLen(i - 1)
  }

  predicate SlotOk(s: Slot) {
    if s.name.None? then s == FREE else 1 <= s.key <= KEY_RESET
  }

  predicate Valid(t: Table) {
    && |t.dyn| < MAX_TABLES && t.key <= KEY_RESET && |t.statics| <= 0x10000
    && (forall j :: 0 <= j < |t.statics| ==> t.statics[j].name.Some?)
    && (forall i :: 0 <= i < |t.dyn| ==> |t.dyn[i]| == TableLen(i + 1))
    && (forall i, j :: 0 <= i < |t.dyn| && 0 <= j < |t.dyn[i]| ==> SlotOk(t.dyn[i][j]))
  }

  // ---------------------------------------------------------------- keys

  function NextKey(k: nat): nat {
    if k <= 1 then KEY_RESET else k - 1
  }

  /** The key after n symbols have been added. */
  function KeyAfter(k: nat, n: nat): nat {
    if n == 0 then k else NextKey(KeyAfter(k, n - 1))
  }

  /** From a key in use, the key counts down to 1, starts over at 2047, and so returns to its value
    * after 2047 steps and not before. */
  lemma {:induction false} KeyAfterClosed(k: nat, n: nat)
    requires 1 <= k <= KEY_RESET && n <= KEY_RESET
    ensures KeyAfter(k, n) == if n < k then k - n else k - n + KEY_RESET
  {
    if n > 0 {
      KeyAfterClosed(k, n - 1);
    }
  }

  // ---------------------------------------------------------------- indices

  function Encode(key: nat, i: nat, j: nat): nat {
    key * 0x10_0000 + i * 0x1000 + j
  }

  function KeyOf(idx: nat): nat { idx / 0x10_0000 % 0x800 }
  function TableOf(idx: nat): nat { idx / 0x1000 % 0x10 }
  function OffsetOf(idx: nat): nat { idx % 0x1000 }
  predicate IsStatic(idx: nat) { idx / 0x8000_0000 % 2 == 1 }

  /** The shifted and or-ed fields of the packed index do not overlap: on 32-bit words the packing
    * is the sum, and masking and shifting give each field back. */
  lemma PackedWord(key: bv32, i: bv32, j: bv32)
    requires key < 0x800 && i < 0x10 && j < 0x1000
    ensures (key << 20) | (i << 12) | j == key * 0x10_0000 + i * 0x1000 + j
    ensures var w := (key << 20) | (i << 12) | j;
      (w & 0x7FF0_0000) >> 20 == key && (w & 0xF000) >> 12 == i && w & 0xFFF == j && w & 0x8000_0000 == 0
  {
  }

  /** On 32-bit words the masks and shifts of getFxnAddr_P are the divisions KeyOf, TableOf, OffsetOf
    * and IsStatic use. */
  lemma MaskedWord(w: bv32)
    ensures (w & 0x7FF0_0000) >> 20 == w / 0x10_0000 % 0x800
    ensures (w & 0xF000) >> 12 == w / 0x1000 % 0x10
    ensures w & 0xFFF == w % 0x1000 && w & 0xFFFF == w % 0x1_0000
    ensures (w & 0x8000_0000 != 0) == (w / 0x8000_0000 == 1)
  {
  }

  lemma DecodeEncode(key: nat, i: nat, j: nat)
    requires key <= KEY_RESET && i < 0x10 && j < 0x1000
    ensures var idx := Encode(key, i, j);
      KeyOf(idx) == key && TableOf(idx) == i && OffsetOf(idx) == j && !IsStatic(idx) && idx < 0x8000_0000
  {
    DecodeOffset(key * 0x100 + i, j);
    DecodeTable(key, i);
    DecodeKey(key, i * 0x1000 + j);
  }

  lemma DecodeOffset(high: nat, j: nat)
    requires j < 0x1000
    ensures (high * 0x1000 + j) / 0x1000 == high && (high * 0x1000 + j) % 0x1000 == j
  {
  }

  lemma DecodeTable(key: nat, i: nat)
    requires i < 0x10
    ensures (key * 0x100 + i) % 0x10 == i
  {
    LowDigit(key * 0x10, i);
  }

  lemma LowDigit(high: nat, i: nat)
    requires i < 0x10
    ensures (high * 0x10 + i) % 0x10 == i
  {
  }

  lemma DecodeKey(key: nat, low: nat)
    requires low < 0x10_0000 && key < 0x800
    ensures (key * 0x10_0000 + low) / 0x10_0000 == key && key % 0x800 == key
    ensures (key * 0x10_0000 + low) / 0x8000_0000 == 0
  {
  }

  // ---------------------------------------------------------------- operations

  /** Position of the first free slot, or the length. */
  function FirstFree(row: seq<Slot>): (j: nat)
    ensures j <= |row| && (j < |row| ==> row[j].addr == 0)
    ensures forall k :: 0 <= k < j ==> row[k].addr != 0
  {
    if row == [] || row[0].addr == 0 then 0
    else
      var j := FirstFree(row[1..]);
      assert forall k :: 1 <= k < j + 1 ==> row[k] == row[1..][k - 1];
      j + 1
  }

  /** The first table with a free slot, or the number of tables. */
  function FirstRoom(dyn: seq<seq<Slot>>): (i: nat)
    ensures i <= |dyn| && (i < |dyn| ==> FirstFree(dyn[i]) < |dyn[i]|)
    ensures forall k :: 0 <= k < i ==> FirstFree(dyn[k]) == |dyn[k]|
  {
    if dyn == [] || FirstFree(dyn[0]) < |dyn[0]| then 0
    else
      var i := FirstRoom(dyn[1..]);
      assert forall k :: 1 <= k < i + 1 ==> dyn[k] == dyn[1..][k - 1];
      i + 1
  }

  function SetSlot(dyn: seq<seq<Slot>>, i: nat, j: nat, s: Slot): seq<seq<Slot>>
    requires i < |dyn| && j < |dyn[i]|
  {
    dyn[i := dyn[i][j := s]]
  }

  function NewRow(i: nat): seq<Slot> {
    seq(TableLen(i), _ => FREE)
  }

  predicate Full(t: Table) {
    FirstRoom(t.dyn) == |t.dyn| == MAX_TABLES - 1
  }

  /** Allocated tables, one more if those have no free slot. */
  function Roomy(t: Table): (dyn: seq<seq<Slot>>)
    requires Valid(t) && !Full(t)
    ensures FirstRoom(t.dyn) < |dyn| && FirstFree(dyn[FirstRoom(t.dyn)]) < |dyn[FirstRoom(t.dyn)]|
  {
    if FirstRoom(t.dyn) < |t.dyn| then t.dyn
    else
      TableLenPositive(|t.dyn| + 1);
      t.dyn + [NewRow(|t.dyn| + 1)]
  }

  lemma {:induction false} TableLenPositive(i: nat)
    ensures TableLen(i) > 0
  {
    if i > 0 { TableLenPositive(i - 1); }
  }

  /** addSymbol: the new table and the packed index, or none when the table is full. */
  function Add(t: Table, name: string, addr: nat): (Table, Option<nat>)
    requires Valid(t)
  {
    if Full(t) then (t, None)
    else
      var dyn := Roomy(t);
      var i := FirstRoom(t.dyn);
      var j := FirstFree(dyn[i]);
      var key := NextKey(t.key);
      (Table(t.statics, SetSlot(dyn, i, j, Slot(Some(name), addr, key)), key),
       Some(Encode(key, i + 1, j)))
  }

  /** Position of the first slot of that name, or the length. */
  function FindName(row: seq<Slot>, name: string): (j: nat)
    ensures j <= |row| && (j < |row| ==> row[j].name == Some(name))
    ensures forall k :: 0 <= k < j ==> row[k].name != Some(name)
  {
    if row == [] || row[0].name == Some(name) then 0
    else
      var j := FindName(row[1..], name);
      assert forall k :: 1 <= k < j + 1 ==> row[k] == row[1..][k - 1];
      j + 1
  }

  /** The first table with a slot of that name, or the number of tables. */
  function FindTable(dyn: seq<seq<Slot>>, name: string): (i: nat)
    ensures i <= |dyn| && (i < |dyn| ==> FindName(dyn[i], name) < |dyn[i]|)
    ensures forall k :: 0 <= k < i ==> FindName(dyn[k], name) == |dyn[k]|
  {
    if dyn == [] || FindName(dyn[0], name) < |dyn[0]| then 0
    else
      var i := FindTable(dyn[1..], name);
      assert forall k :: 1 <= k < i + 1 ==> dyn[k] == dyn[1..][k - 1];
      i + 1
  }

  /** getSymIdx_P */
  function SymIdx(t: Table, name: string): Option<nat> {
    var s := FindName(t.statics, name);
    var i := FindTable(t.dyn, name);
    if s < |t.statics| then Some(0x8000_0000 + s)
    else if i < |t.dyn| then
      var j := FindName(t.dyn[i], name);
      Some(Encode(t.dyn[i][j].key, i + 1, j))
    else None
  }

  datatype Removal = Removed | NotFound | StaticSymbol

  /** removeSymbol */
  function Remove(t: Table, name: string): (Table, Removal) {
    if FindName(t.statics, name) < |t.statics| then (t, StaticSymbol)
    else
      var i := FindTable(t.dyn, name);
      if i == |t.dyn| then (t, NotFound)
      else (t.(dyn := SetSlot(t.dyn, i, FindName(t.dyn[i], name), FREE)), Removed)
  }

  /** What getFxnAddr_P writes for its caller: for offset 0 only the create function, for any other
    * offset only the message function. */
  datatype Lookup = Invalid | MsgFxn(addr: nat) | CreateFxn(addr: nat)

  /** The source reads the table at the offset it is given, unchecked. */
  predicate InTable(t: Table, idx: nat) {
    !IsStatic(idx) && 1 <= TableOf(idx) <= |t.dyn| ==> OffsetOf(idx) < |t.dyn[TableOf(idx) - 1]|
  }

  /** getFxnAddr_P */
  function FxnAddr(t: Table, idx: nat): Lookup
    requires InTable(t, idx)
  {
    if IsStatic(idx) then
      var j := idx % 0x1_0000;
      if j >= |t.statics| then Invalid
      else if j == 0 then CreateFxn(t.statics[0].addr) else MsgFxn(t.statics[j].addr)
    else
      var i := TableOf(idx);
      if i == 0 || i > |t.dyn| then Invalid
      else
        Resolve(idx, t.dyn[i - 1][OffsetOf(idx)])
  }

  /** The slot that was read, for this index. */
  function Resolve(idx: nat, slot: Slot): Lookup {
    if KeyOf(idx) != slot.key then Invalid
    else if OffsetOf(idx) == 0 then CreateFxn(0) else MsgFxn(slot.addr)
  }

  // ---------------------------------------------------------------- one operation

  lemma {:induction false} RowFits(i: nat)
    requires i < MAX_TABLES
    ensures 16 <= TableLen(i) <= 0x1000
  {
    assert TableLen(0) == 16 && TableLen(1) == 32 && TableLen(2) == 64 && TableLen(3) == 128;
    assert TableLen(4) == 256 && TableLen(5) == 512 && TableLen(6) == 1024;
    assert TableLen(7) == 2048 && TableLen(8) == 4096;
  }

  lemma NewRowKeepsValid(t: Table)
    requires Valid(t) && |t.dyn| + 1 < MAX_TABLES
    ensures Valid(t.(dyn := t.dyn + [NewRow(|t.dyn| + 1)]))
  {
  }

  lemma AddKeepsValid(t: Table, name: string, addr: nat)
    requires Valid(t)
    ensures Valid(Add(t, name, addr).0)
  {
    if !Full(t) {
      var dyn := Roomy(t);
      assert forall i :: 0 <= i < |dyn| ==> |dyn[i]| == TableLen(i + 1);
    }
  }

  lemma RemoveKeepsValid(t: Table, name: string)
    requires Valid(t)
    ensures Valid(Remove(t, name).0)
  {
  }

  lemma StepsKeepValid(t: Table, name: string, addr: nat)
    requires Valid(t)
    ensures Valid(Add(t, name, addr).0) && Valid(Remove(t, name).0)
  {
    AddKeepsValid(t, name, addr);
    RemoveKeepsValid(t, name);
  }

  /** Slot (i, j) of dynamic table i, free when the table is not allocated. */
  function At(t: Table, i: nat, j: nat): Slot {
    if 1 <= i <= |t.dyn| && j < |t.dyn[i - 1]| then t.dyn[i - 1][j] else FREE
  }

  /** t' is t with a symbol in slot (i, j), which had address 0; every other slot is as before. */
  ghost predicate OnlyNew(t: Table, t': Table, i: nat, j: nat, s: Slot) {
    && 1 <= i <= |t'.dyn| && j < |t'.dyn[i - 1]|
    && At(t, i, j).addr == 0 && At(t', i, j) == s
    && (forall i': nat, j': nat :: i' != i || j' != j ==> At(t', i', j') == At(t, i', j'))
    && t'.statics == t.statics
  }

  lemma AddPlaces(t: Table, name: string, addr: nat)
    requires Valid(t) && !Full(t)
    ensures var i := FirstRoom(t.dyn);
      OnlyNew(t, Add(t, name, addr).0, i + 1, FirstFree(Roomy(t)[i]), Slot(Some(name), addr, NextKey(t.key)))
  {
    var dyn := Roomy(t);
    var i := FirstRoom(t.dyn);
    var j := FirstFree(dyn[i]);
    var t' := Add(t, name, addr).0;
    if i < |t.dyn| {
      assert SlotOk(t.dyn[i][j]);
    }
    forall i': nat, j': nat | i' != i + 1 || j' != j ensures At(t', i', j') == At(t, i', j') {
    }
  }

  /** THEOREM. Adding a symbol returns an index whose fields name one slot: that slot had address 0 and
    * now holds the symbol under the next key, no other slot changes, and the index resolves to it. A
    * symbol at offset 0 of its table does resolve, but its function is not handed out. */
  lemma AddIssues(t: Table, name: string, addr: nat)
    requires Valid(t) && !Full(t)
    ensures var (t', idx) := Add(t, name, addr);
      && idx.Some? && !IsStatic(idx.value) && InTable(t', idx.value)
      && KeyOf(idx.value) == t'.key == NextKey(t.key)
      && OnlyNew(t, t', TableOf(idx.value), OffsetOf(idx.value), Slot(Some(name), addr, t'.key))
      && FxnAddr(t', idx.value) == if OffsetOf(idx.value) == 0 then CreateFxn(0) else MsgFxn(addr)
  {
    var i := FirstRoom(t.dyn);
    var j := FirstFree(Roomy(t)[i]);
    AddPlaces(t, name, addr);
    RowFits(i + 1);
    assert |Roomy(t)[i]| == TableLen(i + 1);
    DecodeEncode(NextKey(t.key), i + 1, j);
  }

  /** THEOREM. Two taken slots have different indices. */
  lemma IndicesDistinct(t: Table, i: nat, j: nat, i': nat, j': nat)
    requires Valid(t) && (i != i' || j != j')
    requires At(t, i, j) != FREE && At(t, i', j') != FREE
    ensures Encode(At(t, i, j).key, i, j) != Encode(At(t, i', j').key, i', j')
  {
    assert SlotOk(t.dyn[i - 1][j]) && SlotOk(t.dyn[i' - 1][j']);
    RowFits(i);
    RowFits(i');
    DecodeEncode(At(t, i, j).key, i, j);
    DecodeEncode(At(t, i', j').key, i', j');
  }

  /** Of the dynamic slots, how many are taken. */
  function Taken(dyn: seq<seq<Slot>>): nat {
    if dyn == [] then 0 else Count(dyn[0], InUse()) + Taken(dyn[1..])
  }

  function InUse(): Slot -> bool {
    (s: Slot) => s.addr != 0
  }

  lemma {:induction false} CountFull(row: seq<Slot>)
    ensures Count(row, InUse()) == |row| <==> FirstFree(row) == |row|
  {
    if row != [] {
      CountFull(row[1..]);
      CountAtMost(row[1..], InUse());
    }
  }

  /** The sum of the lengths of the tables i, i + 1, .. 8. */
  function Slots(i: nat): nat
    requires i <= MAX_TABLES
    decreases MAX_TABLES - i
  {
    if i == MAX_TABLES then 0 else TableLen(i) + Slots(i + 1)
  }

  lemma {:induction false} TakenBound(dyn: seq<seq<Slot>>, i: nat)
    requires i + |dyn| <= MAX_TABLES
    requires forall k :: 0 <= k < |dyn| ==> |dyn[k]| == TableLen(i + k)
    ensures Taken(dyn) <= Slots(i)
    ensures Taken(dyn) == Slots(i) <==> i + |dyn| == MAX_TABLES && FirstRoom(dyn) == |dyn|
    decreases |dyn|
  {
    if dyn == [] {
      if i < MAX_TABLES { TableLenPositive(i); }
    } else {
      assert |dyn[0]| == TableLen(i + 0);
      assert forall k :: 0 <= k < |dyn[1..]| ==> dyn[1..][k] == dyn[k + 1];
      TakenBound(dyn[1..], i + 1);
      CountFull(dyn[0]);
      CountAtMost(dyn[0], InUse());
    }
  }

  /** THEOREM. A symbol is refused exactly when all 8160 dynamic slots are taken. */
  lemma RefusedOnlyWhenFull(t: Table, name: string, addr: nat)
    requires Valid(t)
    ensures Add(t, name, addr).1.None? <==> Taken(t.dyn) == 8160
  {
    TakenBound(t.dyn, 1);
    assert TableLen(1) == 32 && TableLen(2) == 64 && TableLen(3) == 128 && TableLen(4) == 256;
    assert TableLen(5) == 512 && TableLen(6) == 1024 && TableLen(7) == 2048 && TableLen(8) == 4096;
    assert Slots(9) == 0 && Slots(8) == 4096 && Slots(7) == 6144 && Slots(6) == 7168;
    assert Slots(5) == 7680 && Slots(4) == 7936 && Slots(3) == 8064 && Slots(2) == 8128 && Slots(1) == 8160;
  }

  /** No slot has that name. */
  ghost predicate Unknown(t: Table, name: string) {
    && (forall k :: 0 <= k < |t.statics| ==> t.statics[k].name != Some(name))
    && (forall i: nat, j: nat :: At(t, i, j).name != Some(name))
  }

  lemma NameAt(t: Table, name: string, i: nat, j: nat)
    requires 1 <= i <= |t.dyn| && j < |t.dyn[i - 1]| && t.dyn[i - 1][j].name == Some(name)
    requires forall i': nat, j': nat :: i' != i || j' != j ==> At(t, i', j').name != Some(name)
    ensures FindTable(t.dyn, name) == i - 1 && FindName(t.dyn[i - 1], name) == j
  {
    var f := FindTable(t.dyn, name);
    assert f <= i - 1;
    var n := FindName(t.dyn[f], name);
    assert At(t, f + 1, n).name == Some(name);
  }

  lemma NowhereFound(t: Table, name: string)
    requires FindName(t.statics, name) == |t.statics| && FindTable(t.dyn, name) == |t.dyn|
    ensures forall i: nat, j: nat :: At(t, i, j).name != Some(name)
  {
    forall i: nat, j: nat ensures At(t, i, j).name != Some(name) {
      if 1 <= i <= |t.dyn| && j < |t.dyn[i - 1]| {
        assert FindName(t.dyn[i - 1], name) == |t.dyn[i - 1]|;
      }
    }
  }

  /** THEOREM. After a symbol whose name is new has been added, asking for the name gives the same
    * index back. */
  lemma SymIdxAgrees(t: Table, name: string, addr: nat)
    requires Valid(t) && !Full(t) && Unknown(t, name)
    ensures SymIdx(Add(t, name, addr).0, name) == Add(t, name, addr).1
  {
    AddPlaces(t, name, addr);
    var i := FirstRoom(t.dyn);
    NameAt(Add(t, name, addr).0, name, i + 1, FirstFree(Roomy(t)[i]));
  }

  /** What a removal does to the slots: it frees exactly the first slot of that name. */
  lemma RemoveFrees(t: Table, name: string)
    requires FindName(t.statics, name) == |t.statics| && FindTable(t.dyn, name) < |t.dyn|
    ensures var i := FindTable(t.dyn, name) + 1;
      var j := FindName(t.dyn[i - 1], name);
      && At(t, i, j).name == Some(name) && At(Remove(t, name).0, i, j) == FREE
      && (forall i': nat, j': nat :: i' != i || j' != j ==> At(Remove(t, name).0, i', j') == At(t, i', j'))
  {
  }

  // ---------------------------------------------------------------- names and indices

  /** Static slot s is the first static slot of that name. */
  ghost predicate FirstStatic(t: Table, name: string, s: nat) {
    && s < |t.statics| && t.statics[s].name == Some(name)
    && forall k :: 0 <= k < s ==> t.statics[k].name != Some(name)
  }

  /** No static slot has that name, and slot (i, j) is the first dynamic one that does, tables in order. */
  ghost predicate FirstDynamic(t: Table, name: string, i: nat, j: nat) {
    && (forall k :: 0 <= k < |t.statics| ==> t.statics[k].name != Some(name))
    && At(t, i, j).name == Some(name)
    && (forall i': nat, j': nat :: i' < i || (i' == i && j' < j) ==> At(t, i', j').name != Some(name))
  }

  lemma StaticFound(t: Table, name: string, s: nat)
    requires FirstStatic(t, name, s)
    ensures FindName(t.statics, name) == s
  {
  }

  lemma DynamicFound(t: Table, name: string, i: nat, j: nat)
    requires FirstDynamic(t, name, i, j)
    ensures 1 <= i <= |t.dyn| && j < |t.dyn[i - 1]|
    ensures FindName(t.statics, name) == |t.statics| && FindTable(t.dyn, name) == i - 1 && FindName(t.dyn[i - 1], name) == j
  {
    var f := FindTable(t.dyn, name);
    assert t.dyn[i - 1][j].name == Some(name);
    assert f <= i - 1;
    var n := FindName(t.dyn[f], name);
    assert At(t, f + 1, n).name == Some(name);
    assert n <= j;
  }

  /** THEOREM. The index 0x80000000 + j gives the function of static slot j, as create function for slot 0
    * and as message function for any other, and from the number of static slots on it is refused. */
  lemma StaticResolves(t: Table, j: nat)
    requires |t.statics| <= 0x10000 && j < 0x10000
    ensures FxnAddr(t, 0x8000_0000 + j) ==
      if j >= |t.statics| then Invalid
      else if j == 0 then CreateFxn(t.statics[0].addr) else MsgFxn(t.statics[j].addr)
  {
  }

  /** THEOREM. In any table, asking for a name and resolving the index that is given leads to the first slot
    * of that name: to its function, a static one before any dynamic one; at offset 0 of a dynamic table to
    * none. */
  lemma NameResolves(t: Table, name: string)
    requires Valid(t)
    ensures forall s: nat :: FirstStatic(t, name, s) ==>
      && SymIdx(t, name) == Some(0x8000_0000 + s)
      && FxnAddr(t, 0x8000_0000 + s) == if s == 0 then CreateFxn(t.statics[0].addr) else MsgFxn(t.statics[s].addr)
    ensures forall i: nat, j: nat :: FirstDynamic(t, name, i, j) ==>
      && SymIdx(t, name).Some? && InTable(t, SymIdx(t, name).value)
      && SymIdx(t, name).value == At(t, i, j).key * 0x10_0000 + i * 0x1000 + j
      && FxnAddr(t, SymIdx(t, name).value) == if j == 0 then CreateFxn(0) else MsgFxn(At(t, i, j).addr)
    ensures SymIdx(t, name).None? <==> Unknown(t, name)
  {
    forall s: nat | FirstStatic(t, name, s)
      ensures SymIdx(t, name) == Some(0x8000_0000 + s)
      ensures FxnAddr(t, 0x8000_0000 + s) == if s == 0 then CreateFxn(t.statics[0].addr) else MsgFxn(t.statics[s].addr)
    {
      StaticFound(t, name, s);
      StaticResolves(t, s);
    }
    forall i: nat, j: nat | FirstDynamic(t, name, i, j)
      ensures SymIdx(t, name).Some? && InTable(t, SymIdx(t, name).value)
      ensures SymIdx(t, name).value == At(t, i, j).key * 0x10_0000 + i * 0x1000 + j
      ensures FxnAddr(t, SymIdx(t, name).value) == if j == 0 then CreateFxn(0) else MsgFxn(At(t, i, j).addr)
    {
      DynamicResolves(t, name, i, j);
    }
    GivesNone(t, name);
  }

  lemma DynamicResolves(t: Table, name: string, i: nat, j: nat)
    requires Valid(t) && FirstDynamic(t, name, i, j)
    ensures SymIdx(t, name).Some? && InTable(t, SymIdx(t, name).value)
    ensures SymIdx(t, name).value == At(t, i, j).key * 0x10_0000 + i * 0x1000 + j
    ensures FxnAddr(t, SymIdx(t, name).value) == if j == 0 then CreateFxn(0) else MsgFxn(At(t, i, j).addr)
  {
    DynamicFound(t, name, i, j);
    assert SlotOk(t.dyn[i - 1][j]);
    RowFits(i);
    DecodeEncode(t.dyn[i - 1][j].key, i, j);
  }

  lemma GivesNone(t: Table, name: string)
    ensures SymIdx(t, name).None? <==> Unknown(t, name)
  {
    if FindName(t.statics, name) == |t.statics| {
      var i := FindTable(t.dyn, name);
      if i < |t.dyn| {
        assert At(t, i + 1, FindName(t.dyn[i], name)).name == Some(name);
      } else {
        NowhereFound(t, name);
      }
    }
  }

  /** THEOREM. A removal is refused as static exactly when a static slot has the name, and as not found
    * exactly when no slot has; then the table is as before. Otherwise it frees the first dynamic slot of
    * the name and no other. */
  lemma RemoveAnswers(t: Table, name: string)
    ensures var (t', r) := Remove(t, name);
      && (r.StaticSymbol? <==> exists k :: 0 <= k < |t.statics| && t.statics[k].name == Some(name))
      && (r.NotFound? <==> Unknown(t, name))
      && (!r.Removed? ==> t' == t)
    ensures var (t', r) := Remove(t, name);
      forall i: nat, j: nat :: FirstDynamic(t, name, i, j) ==>
        && r.Removed? && At(t', i, j) == FREE && t'.statics == t.statics && t'.key == t.key
        && forall i': nat, j': nat :: i' != i || j' != j ==> At(t', i', j') == At(t, i', j')
  {
    GivesNone(t, name);
    var t' := Remove(t, name).0;
    forall i: nat, j: nat | FirstDynamic(t, name, i, j)
      ensures Remove(t, name).1.Removed? && At(t', i, j) == FREE && t'.statics == t.statics && t'.key == t.key
      ensures forall i': nat, j': nat :: i' != i || j' != j ==> At(t', i', j') == At(t, i', j')
    {
      DynamicFound(t, name, i, j);
      RemoveFrees(t, name);
    }
  }

  // ---------------------------------------------------------------- indices over time

  datatype Op = AddOp(name: string, addr: nat) | RemoveOp(name: string)

  function Do(t: Table, op: Op): Table
    requires Valid(t)
  {
    match op
    case AddOp(name, addr) => Add(t, name, addr).0
    case RemoveOp(name) => Remove(t, name).0
  }

  /** The table while slot (i, j) is being watched: live until the slot changes, and the number of symbols
    * added since. */
  datatype Watch = Watch(table: Table, live: bool, added: nat)

  function Observe(w: Watch, op: Op, i: nat, j: nat): Watch
    requires Valid(w.table)
  {
    var t' := Do(w.table, op);
    Watch(t', w.live && At(t', i, j) == At(w.table, i, j), w.added + One(op.AddOp? && !Full(w.table)))
  }

  lemma DoKeepsValid(t: Table, op: Op)
    requires Valid(t)
    ensures Valid(Do(t, op))
    ensures |t.dyn| <= |Do(t, op).dyn|
    ensures forall i :: 0 <= i < |t.dyn| ==> |Do(t, op).dyn[i]| == |t.dyn[i]|
  {
    StepsKeepValid(t, op.name, if op.AddOp? then op.addr else 1);
  }

  function ObserveAll(w: Watch, ops: seq<Op>, i: nat, j: nat): (r: Watch)
    requires Valid(w.table)
    ensures Valid(r.table)
    decreases ops
  {
    if ops == [] then w
    else
      DoKeepsValid(w.table, ops[0]);
      ObserveAll(Observe(w, ops[0], i, j), ops[1..], i, j)
  }

  /** k is the key counter when the watch started. While live the slot holds s; afterwards it is free
    * or has a key handed out since. */
  ghost predicate Tracked(w: Watch, s: Slot, i: nat, j: nat, k: nat) {
    && s != FREE
    && w.table.key == KeyAfter(k, w.added)
    && (if w.live then At(w.table, i, j) == s
        else At(w.table, i, j) == FREE || Reissued(At(w.table, i, j).key, k, w.added))
  }

  ghost predicate Reissued(key: nat, k: nat, n: nat) {
    exists m: nat :: 1 <= m <= n && key == KeyAfter(k, m)
  }

  lemma ReissuedGrows(k: nat, n: nat)
    ensures Reissued(KeyAfter(k, n + 1), k, n + 1)
    ensures forall key: nat :: Reissued(key, k, n) ==> Reissued(key, k, n + 1)
  {
  }

  lemma TrackedStep(w: Watch, op: Op, s: Slot, i: nat, j: nat, k: nat)
    requires Valid(w.table) && Tracked(w, s, i, j, k)
    ensures Tracked(Observe(w, op, i, j), s, i, j, k)
  {
    match op
    case AddOp(name, addr) =>
      if !Full(w.table) {
        AddPlaces(w.table, name, addr);
        ReissuedGrows(k, w.added);
      }
    case RemoveOp(name) =>
      if Remove(w.table, name).1.Removed? {
        RemoveFrees(w.table, name);
      }
  }

  lemma {:induction false} TrackedRun(w: Watch, ops: seq<Op>, s: Slot, i: nat, j: nat, k: nat)
    requires Valid(w.table) && Tracked(w, s, i, j, k)
    ensures Tracked(ObserveAll(w, ops, i, j), s, i, j, k)
    decreases ops
  {
    if ops != [] {
      DoKeepsValid(w.table, ops[0]);
      TrackedStep(w, ops[0], s, i, j, k);
      TrackedRun(Observe(w, ops[0], i, j), ops[1..], s, i, j, k);
    }
  }

  lemma {:induction false} TablesStay(w: Watch, ops: seq<Op>, i: nat, j: nat)
    requires Valid(w.table)
    ensures |w.table.dyn| <= |ObserveAll(w, ops, i, j).table.dyn|
    ensures forall n :: 0 <= n < |w.table.dyn| ==> |ObserveAll(w, ops, i, j).table.dyn[n]| == |w.table.dyn[n]|
    decreases ops
  {
    if ops != [] {
      DoKeepsValid(w.table, ops[0]);
      TablesStay(Observe(w, ops[0], i, j), ops[1..], i, j);
    }
  }

  /** THEOREM. From the moment an index is issued and through the next 2046 additions, whatever else
    * is added and removed, the index is accepted exactly as long as its symbol is in its slot. */
  lemma AcceptedWhileLive(t: Table, name: string, addr: nat, ops: seq<Op>)
    requires Valid(t) && !Full(t)
    ensures var (t', idx) := Add(t, name, addr);
      && idx.Some? && Valid(t')
      && var w := ObserveAll(Watch(t', true, 0), ops, TableOf(idx.value), OffsetOf(idx.value));
      && InTable(w.table, idx.value)
      && (w.added < 2047 ==> (FxnAddr(w.table, idx.value) != Invalid <==> w.live))
  {
    StepsKeepValid(t, name, addr);
    AddIssues(t, name, addr);
    var (t', idx) := Add(t, name, addr);
    var i, j, k := TableOf(idx.value), OffsetOf(idx.value), t'.key;
    var w0 := Watch(t', true, 0);
    TablesStay(w0, ops, i, j);
    TrackedRun(w0, ops, At(t', i, j), i, j, k);
    var w := ObserveAll(w0, ops, i, j);
    if w.added < 2047 {
      AcceptedAt(w, At(t', i, j), idx.value, k);
    }
  }

  /** What the record of a watched slot says about the index of the symbol that was put there. */
  lemma AcceptedAt(w: Watch, s: Slot, idx: nat, k: nat)
    requires Tracked(w, s, TableOf(idx), OffsetOf(idx), k) && w.added < 2047 && InTable(w.table, idx)
    requires !IsStatic(idx) && 1 <= TableOf(idx) <= |w.table.dyn| && KeyOf(idx) == k == s.key && 1 <= k <= KEY_RESET
    ensures FxnAddr(w.table, idx) != Invalid <==> w.live
  {
    var slot := At(w.table, TableOf(idx), OffsetOf(idx));
    if !w.live && slot != FREE {
      NotReissued(slot.key, k, w.added);
    }
  }

  /** THEOREM. A symbol whose address is not zero stays in its slot until it is removed: no addition, and no
    * removal of another name, changes the slot. */
  lemma OnlyRemovalEnds(t: Table, op: Op, i: nat, j: nat)
    requires Valid(t) && At(t, i, j).addr != 0 && At(Do(t, op), i, j) != At(t, i, j)
    ensures op.RemoveOp? && At(t, i, j).name == Some(op.name) && At(Do(t, op), i, j) == FREE
  {
    match op
    case AddOp(name, addr) =>
      if !Full(t) {
        AddPlaces(t, name, addr);
      }
    case RemoveOp(name) =>
      if Remove(t, name).1.Removed? {
        RemoveFrees(t, name);
      }
  }

  /** THEOREM. A symbol of address zero loses its slot to the very next addition, though it has not been
    * removed: the slot holds the new symbol, and the index of the first one is accepted no more. */
  lemma ZeroAddressTakenOver(t: Table, first: string, second: string, addr: nat)
    requires Valid(t) && !Full(t)
    ensures var (t1, idx) := Add(t, first, 0);
      && idx.Some? && Valid(t1) && !Full(t1)
      && var (t2, next) := Add(t1, second, addr);
      && next.Some? && TableOf(next.value) == TableOf(idx.value) && OffsetOf(next.value) == OffsetOf(idx.value)
      && At(t2, TableOf(idx.value), OffsetOf(idx.value)) == Slot(Some(second), addr, t2.key)
      && InTable(t2, idx.value) && FxnAddr(t2, idx.value) == Invalid
  {
    AddKeepsValid(t, first, 0);
    AddIssues(t, first, 0);
    var t1 := Add(t, first, 0).0;
    SameRoom(t, first);
    AddIssues(t1, second, addr);
    FieldsOfAdd(t, first, 0);
    FieldsOfAdd(t1, second, addr);
  }

  /** The slot of a symbol of address zero is the first free one again. */
  lemma SameRoom(t: Table, name: string)
    requires Valid(t) && !Full(t)
    ensures var t1 := Add(t, name, 0).0;
      FirstRoom(t1.dyn) == FirstRoom(t.dyn) < |t1.dyn| && FirstFree(t1.dyn[FirstRoom(t.dyn)]) == FirstFree(Roomy(t)[FirstRoom(t.dyn)])
  {
    var i := FirstRoom(t.dyn);
    var row := Roomy(t)[i];
    var j := FirstFree(row);
    var dyn := Add(t, name, 0).0.dyn;
    assert dyn[i] == row[j := dyn[i][j]] && dyn[i][j].addr == 0;
    assert FirstFree(dyn[i]) == j by {
      assert forall k :: 0 <= k < j ==> dyn[i][k] == row[k];
    }
    assert forall k :: 0 <= k < i ==> dyn[k] == t.dyn[k];
    assert FirstRoom(dyn) >= i;
  }

  lemma FieldsOfAdd(t: Table, name: string, addr: nat)
    requires Valid(t) && !Full(t)
    ensures var idx := Add(t, name, addr).1;
      && idx.Some? && TableOf(idx.value) == FirstRoom(t.dyn) + 1
      && OffsetOf(idx.value) == FirstFree(Roomy(t)[FirstRoom(t.dyn)])
  {
    var i := FirstRoom(t.dyn);
    RowFits(i + 1);
    assert |Roomy(t)[i]| == TableLen(i + 1);
    DecodeEncode(NextKey(t.key), i + 1, FirstFree(Roomy(t)[i]));
  }

  /** THEOREM. Which dynamic indices are accepted at all: those whose slot is taken under their key, that
    * is, the index of a symbol in the table; and, besides, any index of key 0 that names a free slot of an
    * allocated table, which has never been issued and gives address zero. */
  lemma AcceptedIff(t: Table, idx: nat)
    requires Valid(t) && !IsStatic(idx) && InTable(t, idx)
    ensures var (i, j) := (TableOf(idx), OffsetOf(idx));
      && (FxnAddr(t, idx) != Invalid <==>
            (1 <= i <= |t.dyn| && if At(t, i, j) == FREE then KeyOf(idx) == 0 else KeyOf(idx) == At(t, i, j).key))
      && (1 <= i <= |t.dyn| && At(t, i, j) == FREE && KeyOf(idx) == 0 ==>
            FxnAddr(t, idx) == if j == 0 then CreateFxn(0) else MsgFxn(0))
      && (1 <= i <= |t.dyn| && At(t, i, j) != FREE ==> At(t, i, j).key != 0)
  {
    if 1 <= TableOf(idx) <= |t.dyn| {
      assert SlotOk(t.dyn[TableOf(idx) - 1][OffsetOf(idx)]);
    }
  }

  /** A key handed out within the next 2046 additions is another one. */
  lemma NotReissued(key: nat, k: nat, n: nat)
    requires 1 <= k <= KEY_RESET && n < 2047 && Reissued(key, k, n)
    ensures key != k
  {
    var m: nat :| 1 <= m <= n && key == KeyAfter(k, m);
    KeyAfterClosed(k, m);
  }

  /** n times: add a symbol and remove it again. */
  function Churn(n: nat): (ops: seq<Op>)
  {
    if n == 0 then [] else [AddOp("f", 1), RemoveOp("f")] + Churn(n - 1)
  }

  /** One allocated dynamic table, all free. */
  function OneTable(key: nat): Table {
    Table([], [NewRow(1)], key)
  }

  lemma ChurnOnce(key: nat)
    requires key <= KEY_RESET
    ensures Valid(OneTable(key)) && !Full(OneTable(key))
    ensures var t1 := Add(OneTable(key), "f", 1).0;
      Valid(t1) && Remove(t1, "f").0 == OneTable(NextKey(key))
    ensures Add(OneTable(key), "f", 1).1 == Some(Encode(NextKey(key), 1, 0))
  {
    var t := OneTable(key);
    RowFits(1);
    assert FirstFree(t.dyn[0]) == 0 && FirstRoom(t.dyn) == 0;
    var t1 := Add(t, "f", 1).0;
    assert t1.dyn[0][0].name == Some("f");
    assert FindName(t1.dyn[0], "f") == 0 && FindTable(t1.dyn, "f") == 0;
    assert t1.dyn[0][0 := FREE] == NewRow(1);
  }

  /** Each round adds one symbol and leaves the table empty with the next key. */
  lemma {:induction false} ChurnRun(key: nat, n: nat, added: nat)
    requires key <= KEY_RESET
    ensures Valid(OneTable(key)) && KeyAfter(key, n) <= KEY_RESET
    ensures ObserveAll(Watch(OneTable(key), false, added), Churn(n), 1, 0) ==
            Watch(OneTable(KeyAfter(key, n)), false, added + n)
    decreases n
  {
    ChurnOnce(key);
    if n > 0 {
      ChurnRun(NextKey(key), n - 1, added + 1);
      KeyAfterShift(key, n - 1);
      var w := Watch(OneTable(key), false, added);
      var w1 := Observe(w, AddOp("f", 1), 1, 0);
      assert Churn(n)[1..][1..] == Churn(n - 1);
      assert ObserveAll(w, Churn(n), 1, 0) == ObserveAll(w1, Churn(n)[1..], 1, 0);
      assert Observe(w1, RemoveOp("f"), 1, 0) == Watch(OneTable(NextKey(key)), false, added + 1);
    }
  }

  lemma {:induction false} KeyAfterShift(k: nat, n: nat)
    ensures KeyAfter(NextKey(k), n) == KeyAfter(k, n + 1)
  {
    if n > 0 {
      KeyAfterShift(k, n - 1);
    }
  }

  /** The bound is tight: after one removal and 2046 additions that were removed again, the 2047th
    * addition gets the very index that was issued for the first symbol. */
  lemma StaleAfter2047()
    ensures var (t1, idx) := Add(OneTable(1), "f", 1);
      && Valid(t1) && idx == Some(Encode(KEY_RESET, 1, 0))
      && var w := ObserveAll(Watch(t1, true, 0), [RemoveOp("f")] + Churn(2046), 1, 0);
      && !w.live && w.added == 2046
      && Add(w.table, "f", 1).1 == idx
  {
    ChurnOnce(1);
    ChurnRun(KEY_RESET, 2046, 0);
    KeyAfterClosed(KEY_RESET, 2046);
    var w0 := Watch(Add(OneTable(1), "f", 1).0, true, 0);
    var ops := [RemoveOp("f")] + Churn(2046);
    assert ops[1..] == Churn(2046);
    assert Observe(w0, ops[0], 1, 0) == Watch(OneTable(KEY_RESET), false, 0);
  }
}
