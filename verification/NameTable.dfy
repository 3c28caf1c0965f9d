/** A name server instance as a value: the list of entries, and entries chained behind one of them
  * because their hash collided when they were added. */
module NameTable {
  import opened Counting
  import opened StringHash

  type Bytes = seq<bv8>

  datatype Entry = Entry(hash: bv32, name: Name, value: Bytes)
  datatype Row = Row(entry: Entry, chain: seq<Entry>)

  datatype Table = Table(rows: seq<Row>, count: nat, maxNameLen: nat, maxValueLen: nat, checkExisting: bool)

  // ---------------------------------------------------------------- operations

  /** Position of the first row with that hash, or the length. */
  function FindHash(rows: seq<Row>, hash: bv32): (i: nat)
    ensures i <= |rows| && (i < |rows| ==> rows[i].entry.hash == hash)
    ensures forall j :: 0 <= j < i ==> rows[j].entry.hash != hash
  {
    if rows == [] || rows[0].entry.hash == hash then 0
    else
      var i := FindHash(rows[1..], hash);
      assert forall j :: 1 <= j < i + 1 ==> rows[j] == rows[1..][j - 1];
      i + 1
  }

  /** Where the scan of an add stops: at an entry of the same hash that has another name, or, when
    * duplicates are refused, at an entry of that name; else at the length. */
  function AddStop(rows: seq<Row>, hash: bv32, name: Name, checkExisting: bool): (i: nat)
    ensures i <= |rows|
    ensures i < |rows| ==> rows[i].entry.hash == hash && (rows[i].entry.name == name ==> checkExisting)
    ensures forall j :: 0 <= j < i && rows[j].entry.hash == hash ==> rows[j].entry.name == name && !checkExisting
  {
    if rows == [] || (rows[0].entry.hash == hash && (rows[0].entry.name != name || checkExisting)) then 0
    else
      var i := AddStop(rows[1..], hash, name, checkExisting);
      assert forall j :: 1 <= j < i + 1 ==> rows[j] == rows[1..][j - 1];
      i + 1
  }

  /** The longest name accepted, computed without sign: a configured 0 sets no limit. */
  function NameLimit(maxNameLen: nat): nat {
    if maxNameLen == 0 then 0xFFFF_FFFF else maxNameLen - 1
  }

  predicate Fits(t: Table, name: Name, value: Bytes) {
    |name| <= NameLimit(t.maxNameLen) && |value| <= t.maxValueLen
  }

  /** A new entry goes to the head of the list, one whose hash collides behind the entry it collides
    * with. */
  function Enter(t: Table, e: Entry): (Table, bool) {
    var i := AddStop(t.rows, e.hash, e.name, t.checkExisting);
    if i == |t.rows| then (t.(rows := [Row(e, [])] + t.rows, count := t.count + 1), true)
    else if t.rows[i].entry.name == e.name then (t, false)
    else (t.(rows := t.rows[i := Row(t.rows[i].entry, [e] + t.rows[i].chain)], count := t.count + 1), true)
  }

  /** What an accepted entry does, by where the scan stopped. */
  lemma EnterAt(t: Table, e: Entry, i: nat)
    requires i == AddStop(t.rows, e.hash, e.name, t.checkExisting)
    requires i < |t.rows| ==> t.rows[i].entry.name != e.name
    ensures Enter(t, e) == (t.(
      rows := if i < |t.rows| then t.rows[i := Row(t.rows[i].entry, [e] + t.rows[i].chain)] else [Row(e, [])] + t.rows,
      count := t.count + 1), true)
  {
  }

  /** NameServer_add */
  function Add(t: Table, name: Name, value: Bytes): (Table, bool) {
    if Fits(t, name, value) then Enter(t, Entry(Hash(name), name, value)) else (t, false)
  }

  function Prefix(b: Bytes, n: nat): Bytes {
    if n <= |b| then b[..n] else b
  }

  /** NameServer_getLocal: the value of the first entry with the hash of that name, names not compared. */
  function GetLocal(t: Table, name: Name, length: nat): Option<Bytes> {
    var i := FindHash(t.rows, Hash(name));
    if i < |t.rows| then Some(Prefix(t.rows[i].entry.value, length)) else None
  }

  /** NameServer_removeEntry on row i. What is chained behind the entry goes with it. */
  function RemoveRow(t: Table, i: nat): Table
    requires i < |t.rows| && t.count > 0
  {
    t.(rows := t.rows[..i] + t.rows[i + 1..], count := t.count - 1)
  }

  /** NameServer_remove: the first entry with the hash of that name, names not compared. */
  function Remove(t: Table, name: Name): (Table, bool)
    requires t.count >= |t.rows|
  {
    var i := FindHash(t.rows, Hash(name));
    if i < |t.rows| then (RemoveRow(t, i), true) else (t, false)
  }

  // ---------------------------------------------------------------- the map

  /** No two entries have the same hash, nothing is chained, and every entry is counted. */
  ghost predicate Good(t: Table) {
    && t.checkExisting && t.count == |t.rows|
    && (forall i :: 0 <= i < |t.rows| ==> t.rows[i].chain == [] && t.rows[i].entry.hash == Hash(t.rows[i].entry.name))
    && (forall i, j :: 0 <= i < j < |t.rows| ==> t.rows[i].entry.hash != t.rows[j].entry.hash)
  }

  /** The map a table stands for. */
  function Map(rows: seq<Row>): map<Name, Bytes> {
    if rows == [] then map[] else Map(rows[1..])[rows[0].entry.name := rows[0].entry.value]
  }

  /** Some other name in the table has the hash of this one. */
  ghost predicate Collides(t: Table, name: Name) {
    exists i :: 0 <= i < |t.rows| && t.rows[i].entry.hash == Hash(name) && t.rows[i].entry.name != name
  }

  lemma {:induction false} MapNames(rows: seq<Row>, name: Name)
    ensures name in Map(rows) <==> exists i :: 0 <= i < |rows| && rows[i].entry.name == name
  {
    if rows != [] {
      MapNames(rows[1..], name);
      if i: int :| 0 <= i < |rows| && rows[i].entry.name == name {
        if i > 0 {
          assert rows[1..][i - 1] == rows[i];
        }
      }
      if i: int :| 0 <= i < |rows[1..]| && rows[1..][i].entry.name == name {
        assert rows[i + 1].entry.name == name;
      }
    }
  }

  ghost predicate NamesApart(rows: seq<Row>) {
    forall i, j :: 0 <= i < j < |rows| ==> rows[i].entry.name != rows[j].entry.name
  }

  lemma GoodNames(t: Table)
    requires Good(t)
    ensures NamesApart(t.rows)
  {
  }

  lemma {:induction false} MapAt(rows: seq<Row>, i: nat)
    requires NamesApart(rows) && i < |rows|
    ensures rows[i].entry.name in Map(rows) && Map(rows)[rows[i].entry.name] == rows[i].entry.value
  {
    if i > 0 {
      assert rows[1..][i - 1] == rows[i];
      MapAt(rows[1..], i - 1);
    }
  }

  lemma HeadApart(rows: seq<Row>)
    requires rows != [] && NamesApart(rows)
    ensures rows[0].entry.name !in Map(rows[1..]) && NamesApart(rows[1..])
  {
    MapNames(rows[1..], rows[0].entry.name);
    forall i | 0 <= i < |rows[1..]| ensures rows[1..][i].entry.name != rows[0].entry.name {
      assert rows[1..][i] == rows[i + 1];
    }
  }

  lemma {:induction false} MapSize(rows: seq<Row>)
    requires NamesApart(rows)
    ensures |Map(rows)| == |rows|
  {
    if rows != [] {
      HeadApart(rows);
      MapSize(rows[1..]);
      assert Map(rows).Keys == Map(rows[1..]).Keys + {rows[0].entry.name};
    }
  }

  lemma SkipShift(rows: seq<Row>, i: nat)
    requires 0 < i < |rows|
    ensures var r := rows[..i] + rows[i + 1..];
      r[0] == rows[0] && r[1..] == rows[1..][..i - 1] + rows[1..][i..]
  {
  }

  lemma MapWithoutHead(rows: seq<Row>)
    requires NamesApart(rows) && rows != []
    ensures Map(rows[1..]) == Map(rows) - {rows[0].entry.name}
  {
    HeadApart(rows);
  }

  /** The same row in front of both sides. */
  lemma MapWithoutBehind(rows: seq<Row>, r: seq<Row>, name: Name)
    requires rows != [] && r != [] && r[0] == rows[0] && name != rows[0].entry.name
    requires Map(r[1..]) == Map(rows[1..]) - {name}
    ensures Map(r) == Map(rows) - {name}
  {
  }

  lemma {:induction false} MapWithout(rows: seq<Row>, i: nat)
    requires NamesApart(rows) && i < |rows|
    ensures Map(rows[..i] + rows[i + 1..]) == Map(rows) - {rows[i].entry.name}
  {
    if i == 0 {
      assert rows[..0] + rows[1..] == rows[1..];
      MapWithoutHead(rows);
    } else {
      HeadApart(rows);
      SkipShift(rows, i);
      MapWithout(rows[1..], i - 1);
      MapWithoutBehind(rows, rows[..i] + rows[i + 1..], rows[i].entry.name);
    }
  }

  // ---------------------------------------------------------------- refinement

  function Lookup(m: map<Name, Bytes>, name: Name, length: nat): Option<Bytes> {
    if name in m then Some(Prefix(m[name], length)) else None
  }

  /** A name in the map is found by its hash, at its own row. */
  lemma FoundByHash(t: Table, name: Name)
    requires Good(t) && name in Map(t.rows)
    ensures var i := FindHash(t.rows, Hash(name));
      i < |t.rows| && t.rows[i].entry.name == name && t.rows[i].entry.value == Map(t.rows)[name]
    ensures !Collides(t, name)
  {
    MapNames(t.rows, name);
    var k: int :| 0 <= k < |t.rows| && t.rows[k].entry.name == name;
    OwnRow(t, k);
    GoodNames(t);
    MapAt(t.rows, k);
  }

  /** No other row has the hash of the name in row k. */
  lemma OwnRow(t: Table, k: nat)
    requires Good(t) && k < |t.rows|
    ensures FindHash(t.rows, Hash(t.rows[k].entry.name)) == k && !Collides(t, t.rows[k].entry.name)
  {
    assert t.rows[k].entry.hash == Hash(t.rows[k].entry.name);
  }

  /** A name not in the map is found by its hash exactly when it collides. */
  lemma NotFound(t: Table, name: Name)
    requires Good(t) && name !in Map(t.rows)
    ensures FindHash(t.rows, Hash(name)) < |t.rows| <==> Collides(t, name)
  {
    var i := FindHash(t.rows, Hash(name));
    MapNames(t.rows, name);
    if i < |t.rows| {
      assert t.rows[i].entry.name != name;
    }
  }

  /** THEOREM. A lookup answers as the map does, cut to the length asked for, if and only if the hash of
    * the name is not that of a different name in the table. */
  lemma LookupRefines(t: Table, name: Name, length: nat)
    requires Good(t)
    ensures GetLocal(t, name, length) == Lookup(Map(t.rows), name, length) <==> !Collides(t, name)
  {
    if name in Map(t.rows) {
      FoundByHash(t, name);
    } else {
      NotFound(t, name);
    }
  }

  /** THEOREM. In any table, a lookup finds nothing exactly when no entry has the hash of the name. What
    * it finds is the beginning of the value of the first such entry: as many bytes as asked for, or the
    * whole value when it is shorter. */
  lemma LookupCuts(t: Table, name: Name, length: nat)
    ensures GetLocal(t, name, length).None? <==> forall i :: 0 <= i < |t.rows| ==> t.rows[i].entry.hash != Hash(name)
    ensures forall i :: FirstOfHash(t, i, Hash(name)) ==>
      BeginningOf(GetLocal(t, name, length), t.rows[i].entry.value, length)
  {
    var k := FindHash(t.rows, Hash(name));
    forall i | FirstOfHash(t, i, Hash(name)) ensures i == k {
    }
  }

  ghost predicate FirstOfHash(t: Table, i: int, hash: bv32) {
    && 0 <= i < |t.rows| && t.rows[i].entry.hash == hash
    && forall j :: 0 <= j < i ==> t.rows[j].entry.hash != hash
  }

  /** The first length bytes of that value, or all of it when it is shorter. */
  ghost predicate BeginningOf(r: Option<Bytes>, value: Bytes, length: nat) {
    && r.Some? && r.value <= value
    && |r.value| == if length < |value| then length else |value|
  }

  lemma RemoveRowKeepsGood(t: Table, i: nat)
    requires Good(t) && i < |t.rows|
    ensures Good(RemoveRow(t, i))
  {
    var t' := RemoveRow(t, i);
    assert |t'.rows| == |t.rows| - 1;
    forall j | 0 <= j < |t'.rows|
      ensures t'.rows[j] == t.rows[if j < i then j else j + 1]
    {
    }
  }

  lemma RemoveRowGood(t: Table, i: nat)
    requires Good(t) && i < |t.rows|
    ensures Good(RemoveRow(t, i)) && Map(RemoveRow(t, i).rows) == Map(t.rows) - {t.rows[i].entry.name}
  {
    RemoveRowKeepsGood(t, i);
    GoodNames(t);
    MapWithout(t.rows, i);
  }

  /** THEOREM. Removing a name takes it out of the map and reports whether it was there, if and only if
    * its hash is not that of a different name in the table. */
  lemma RemoveRefines(t: Table, name: Name)
    requires Good(t)
    ensures var (t', ok) := Remove(t, name);
      && Good(t')
      && ((ok == (name in Map(t.rows)) && Map(t'.rows) == Map(t.rows) - {name}) <==> !Collides(t, name))
  {
    var i := FindHash(t.rows, Hash(name));
    if name in Map(t.rows) {
      FoundByHash(t, name);
      RemoveRowGood(t, i);
    } else {
      NotFound(t, name);
      if i < |t.rows| {
        RemoveRowGood(t, i);
      } else {
        assert Map(t.rows) - {name} == Map(t.rows);
      }
    }
  }

  /** THEOREM. An add is refused exactly when the name or value is too long or the name is in the map; a
    * name must be shorter than a configured limit, which leaves room for the terminating zero, and a limit
    * of 0 is none. An accepted add enters the pair into the map if and only if the hash of the name is not
    * that of a different name in the table. */
  lemma AddRefines(t: Table, name: Name, value: Bytes)
    requires Good(t)
    ensures var (t', ok) := Add(t, name, value);
      && (ok <==>
            && (if t.maxNameLen > 0 then |name| < t.maxNameLen else |name| <= 0xFFFF_FFFF)
            && |value| <= t.maxValueLen && name !in Map(t.rows))
      && (!ok ==> t' == t)
      && (ok ==> ((Good(t') && Map(t'.rows) == Map(t.rows)[name := value]) <==> !Collides(t, name)))
  {
    var i := AddStop(t.rows, Hash(name), name, true);
    if name in Map(t.rows) {
      FoundByHash(t, name);
      var k := FindHash(t.rows, Hash(name));
      assert i == k;
    } else {
      NotFound(t, name);
      MapNames(t.rows, name);
      if Fits(t, name, value) {
        AddedGood(t, name, value);
      }
    }
  }

  lemma AddedGood(t: Table, name: Name, value: Bytes)
    requires Good(t) && Fits(t, name, value) && name !in Map(t.rows)
    ensures var (t', ok) := Add(t, name, value);
      ok && ((Good(t') && Map(t'.rows) == Map(t.rows)[name := value]) <==> !Collides(t, name))
  {
    var i := AddStop(t.rows, Hash(name), name, true);
    var t' := Add(t, name, value).0;
    MapNames(t.rows, name);
    if i < |t.rows| {
      assert t.rows[i].entry.name != name;
      assert t'.rows[i].chain != [];
    } else {
      assert t'.rows[1..] == t.rows;
      assert !Collides(t, name);
      assert Good(t');
    }
  }

  // ---------------------------------------------------------------- runs

  /** RemoveEntryOp removes through the handle its add returned, while the entry is in the table. */
  datatype Op =
    | AddOp(name: Name, value: Bytes) | RemoveOp(name: Name) | RemoveEntryOp(name: Name)
    | GetOp(name: Name, length: nat)

  datatype Answer = Done(ok: bool) | Got(value: Option<Bytes>)

  /** Position of the first row of that name, or the length. */
  function RowOf(rows: seq<Row>, name: Name): (i: nat)
    ensures i <= |rows| && (i < |rows| ==> rows[i].entry.name == name)
    ensures forall j :: 0 <= j < i ==> rows[j].entry.name != name
  {
    if rows == [] || rows[0].entry.name == name then 0
    else
      var i := RowOf(rows[1..], name);
      assert forall j :: 1 <= j < i + 1 ==> rows[j] == rows[1..][j - 1];
      i + 1
  }

  function Do(t: Table, op: Op): (r: (Table, Answer))
    requires t.count >= |t.rows|
    ensures r.0.count >= |r.0.rows|
  {
    match op
    case AddOp(name, value) => var (t', ok) := Add(t, name, value); (t', Done(ok))
    case RemoveOp(name) => var (t', ok) := Remove(t, name); (t', Done(ok))
    case RemoveEntryOp(name) =>
      var i := RowOf(t.rows, name);
      if i < |t.rows| then (RemoveRow(t, i), Done(true)) else (t, Done(false))
    case GetOp(name, length) => (t, Got(GetLocal(t, name, length)))
  }

  /** What a finite map answers. */
  function MapDo(m: map<Name, Bytes>, nameLimit: nat, valueLimit: nat, op: Op): (map<Name, Bytes>, Answer) {
    match op
    case AddOp(name, value) =>
      if name in m || |name| > nameLimit || |value| > valueLimit then (m, Done(false))
      else (m[name := value], Done(true))
    case RemoveOp(name) => (m - {name}, Done(name in m))
    case RemoveEntryOp(name) => (m - {name}, Done(name in m))
    case GetOp(name, length) => (m, Got(Lookup(m, name, length)))
  }

  /** No two of these names have the same hash. */
  ghost predicate Apart(names: set<Name>) {
    forall x, y :: x in names && y in names && Hash(x) == Hash(y) ==> x == y
  }

  lemma NoCollision(t: Table, name: Name, names: set<Name>)
    requires Good(t) && Apart(names) && name in names && Map(t.rows).Keys <= names
    ensures !Collides(t, name)
  {
    forall i | 0 <= i < |t.rows| && t.rows[i].entry.hash == Hash(name) ensures t.rows[i].entry.name == name {
      MapNames(t.rows, t.rows[i].entry.name);
      assert t.rows[i].entry.name in Map(t.rows).Keys;
    }
  }

  lemma RemoveEntryRefines(t: Table, name: Name)
    requires Good(t)
    ensures var (t', a) := Do(t, RemoveEntryOp(name));
      Good(t') && Map(t'.rows) == Map(t.rows) - {name} && a == Done(name in Map(t.rows))
  {
    var i := RowOf(t.rows, name);
    MapNames(t.rows, name);
    if i < |t.rows| {
      RemoveRowGood(t, i);
    } else {
      assert Map(t.rows) - {name} == Map(t.rows);
    }
  }

  lemma StepRefines(t: Table, op: Op, names: set<Name>)
    requires Good(t) && Apart(names) && op.name in names && Map(t.rows).Keys <= names
    ensures var (t', a) := Do(t, op);
      && Good(t') && Map(t'.rows).Keys <= names
      && (Map(t'.rows), a) == MapDo(Map(t.rows), NameLimit(t.maxNameLen), t.maxValueLen, op)
      && t'.maxNameLen == t.maxNameLen && t'.maxValueLen == t.maxValueLen
  {
    NoCollision(t, op.name, names);
    match op
    case AddOp(name, value) => AddRefines(t, name, value);
    case RemoveOp(name) => RemoveRefines(t, name);
    case RemoveEntryOp(name) => RemoveEntryRefines(t, name);
    case GetOp(name, length) => LookupRefines(t, name, length);
  }

  /** The table after the operations, and their answers in order. */
  function Run(t: Table, ops: seq<Op>): (Table, seq<Answer>)
    requires t.count >= |t.rows|
    decreases |ops|
  {
    if ops == [] then (t, [])
    else
      var (t1, a) := Do(t, ops[0]);
      var (t2, answers) := Run(t1, ops[1..]);
      (t2, [a] + answers)
  }

  function MapRun(m: map<Name, Bytes>, nameLimit: nat, valueLimit: nat, ops: seq<Op>)
    : (map<Name, Bytes>, seq<Answer>)
    decreases |ops|
  {
    if ops == [] then (m, [])
    else
      var (m1, a) := MapDo(m, nameLimit, valueLimit, ops[0]);
      var (m2, answers) := MapRun(m1, nameLimit, valueLimit, ops[1..]);
      (m2, [a] + answers)
  }

  /** THEOREM. Over any operations on names whose hashes differ pairwise, with duplicates refused, the
    * table answers exactly as a finite map does, stands for that map in the end, and counts it. */
  lemma {:induction false} TableRefinesMap(t: Table, ops: seq<Op>, names: set<Name>)
    requires Good(t) && Apart(names) && Map(t.rows).Keys <= names
    requires forall k :: 0 <= k < |ops| ==> ops[k].name in names
    ensures var (t', answers) := Run(t, ops);
      && (Map(t'.rows), answers) == MapRun(Map(t.rows), NameLimit(t.maxNameLen), t.maxValueLen, ops)
      && Good(t') && t'.count == |Map(t'.rows)|
    decreases |ops|
  {
    if ops == [] {
      GoodNames(t);
      MapSize(t.rows);
    } else {
      StepRefines(t, ops[0], names);
      TableRefinesMap(Do(t, ops[0]).0, ops[1..], names);
    }
  }

  /** Operation k takes that name out. */
  ghost predicate TakesOut(ops: seq<Op>, k: int, name: Name) {
    0 <= k < |ops| && (ops[k] == RemoveOp(name) || ops[k] == RemoveEntryOp(name))
  }

  /** One answer for each operation: that of the first, then those of the others. */
  lemma {:induction false} AnswerEach(m: map<Name, Bytes>, nameLimit: nat, valueLimit: nat, ops: seq<Op>)
    ensures |MapRun(m, nameLimit, valueLimit, ops).1| == |ops|
    decreases |ops|
  {
    if ops != [] {
      AnswerEach(MapDo(m, nameLimit, valueLimit, ops[0]).0, nameLimit, valueLimit, ops[1..]);
    }
  }

  lemma Shifted(ops: seq<Op>, k: int, name: Name)
    requires ops != []
    ensures TakesOut(ops[1..], k, name) <==> k >= 0 && TakesOut(ops, k + 1, name)
  {
  }

  /** A pair stays until its name is taken out, as adds of the name are refused meanwhile. */
  lemma {:induction false} PairIsFound(m: map<Name, Bytes>, nameLimit: nat, valueLimit: nat, ops: seq<Op>, g: nat)
    requires g < |ops| && ops[g].GetOp? && ops[g].name in m
    requires forall k :: 0 <= k < g ==> !TakesOut(ops, k, ops[g].name)
    ensures var answers := MapRun(m, nameLimit, valueLimit, ops).1;
      |answers| == |ops| && answers[g].Got? && BeginningOf(answers[g].value, m[ops[g].name], ops[g].length)
    decreases g
  {
    AnswerEach(m, nameLimit, valueLimit, ops);
    if g > 0 {
      var m1 := MapDo(m, nameLimit, valueLimit, ops[0]).0;
      assert !TakesOut(ops, 0, ops[g].name);
      assert m1[ops[g].name] == m[ops[g].name];
      forall k | 0 <= k < g - 1 ensures !TakesOut(ops[1..], k, ops[g].name) {
        Shifted(ops, k, ops[g].name);
      }
      PairIsFound(m1, nameLimit, valueLimit, ops[1..], g - 1);
    }
  }

  lemma {:induction false} MapAddedIsFound(m: map<Name, Bytes>, nameLimit: nat, valueLimit: nat, ops: seq<Op>, a: nat, g: nat)
    requires a < g < |ops| && ops[a].AddOp? && ops[g].GetOp? && ops[g].name == ops[a].name
    requires var answers := MapRun(m, nameLimit, valueLimit, ops).1; a < |answers| && answers[a] == Done(true)
    requires forall k :: a < k < g ==> !TakesOut(ops, k, ops[g].name)
    ensures var answers := MapRun(m, nameLimit, valueLimit, ops).1;
      |answers| == |ops| && answers[g].Got? && BeginningOf(answers[g].value, ops[a].value, ops[g].length)
    decreases a
  {
    AnswerEach(m, nameLimit, valueLimit, ops);
    var m1 := MapDo(m, nameLimit, valueLimit, ops[0]).0;
    forall k | a <= k < g - 1 ensures !TakesOut(ops[1..], k, ops[g].name) {
      Shifted(ops, k, ops[g].name);
    }
    if a == 0 {
      PairIsFound(m1, nameLimit, valueLimit, ops[1..], g - 1);
    } else {
      MapAddedIsFound(m1, nameLimit, valueLimit, ops[1..], a - 1, g - 1);
    }
  }

  /** Some operation after a and before g takes the name out. */
  ghost predicate OutBetween(ops: seq<Op>, a: int, g: nat, name: Name) {
    exists k :: a < k < g && TakesOut(ops, k, name)
  }

  lemma OutShifted(ops: seq<Op>, a: int, g: nat, name: Name)
    requires ops != [] && -1 <= a && g > 0
    ensures OutBetween(ops[1..], a, g - 1, name) <==> OutBetween(ops, a + 1, g, name)
  {
    if OutBetween(ops[1..], a, g - 1, name) {
      var k :| a < k < g - 1 && TakesOut(ops[1..], k, name);
      Shifted(ops, k, name);
      assert TakesOut(ops, k + 1, name);
    }
    if OutBetween(ops, a + 1, g, name) {
      var k :| a + 1 < k < g && TakesOut(ops, k, name);
      Shifted(ops, k - 1, name);
      assert TakesOut(ops[1..], k - 1, name);
    }
  }

  /** Operation a is an add of that name, and it was accepted. */
  ghost predicate Accepted(ops: seq<Op>, answers: seq<Answer>, a: int, name: Name) {
    && 0 <= a < |ops| && a < |answers| && ops[a].AddOp? && ops[a].name == name
    && answers[a] == Done(true)
  }

  lemma {:induction false} MapRemovedIsNotFound(m: map<Name, Bytes>, nameLimit: nat, valueLimit: nat, ops: seq<Op>, g: nat)
    requires g < |ops| && ops[g].GetOp? && (ops[g].name in m ==> OutBetween(ops, -1, g, ops[g].name))
    requires var answers := MapRun(m, nameLimit, valueLimit, ops).1;
      forall a :: 0 <= a < g && Accepted(ops, answers, a, ops[g].name) ==> OutBetween(ops, a, g, ops[g].name)
    ensures var answers := MapRun(m, nameLimit, valueLimit, ops).1;
      |answers| == |ops| && answers[g] == Got(None)
    decreases g
  {
    AnswerEach(m, nameLimit, valueLimit, ops);
    if g > 0 {
      var name := ops[g].name;
      var m1 := MapDo(m, nameLimit, valueLimit, ops[0]).0;
      AnswerEach(m1, nameLimit, valueLimit, ops[1..]);
      OutShifted(ops, -1, g, name);
      if name in m1 {
        assert ops[0].AddOp? && ops[0].name == name && name !in m ==>
          Accepted(ops, MapRun(m, nameLimit, valueLimit, ops).1, 0, name);
        assert !TakesOut(ops, 0, name);
        assert OutBetween(ops, -1, g, name) ==> OutBetween(ops, 0, g, name);
      }
      forall a | 0 <= a < g - 1 && Accepted(ops[1..], MapRun(m1, nameLimit, valueLimit, ops[1..]).1, a, name)
        ensures OutBetween(ops[1..], a, g - 1, name)
      {
        assert Accepted(ops, MapRun(m, nameLimit, valueLimit, ops).1, a + 1, name);
        OutShifted(ops, a, g, name);
      }
      MapRemovedIsNotFound(m1, nameLimit, valueLimit, ops[1..], g - 1);
    }
  }

  /** THEOREM. Over any operations on names whose hashes differ pairwise: between an accepted add of a name
    * and the next removal of that name, every lookup of it gives the beginning of the value added, as
    * many bytes as asked for or all of it when it is shorter. */
  lemma AddedIsFound(t: Table, ops: seq<Op>, names: set<Name>, a: nat, g: nat)
    requires Good(t) && Apart(names) && Map(t.rows).Keys <= names
    requires forall k :: 0 <= k < |ops| ==> ops[k].name in names
    requires a < g < |ops| && ops[a].AddOp? && ops[g].GetOp? && ops[g].name == ops[a].name
    requires a < |Run(t, ops).1| && Run(t, ops).1[a] == Done(true)
    requires forall k :: a < k < g ==> ops[k] != RemoveOp(ops[a].name) && ops[k] != RemoveEntryOp(ops[a].name)
    ensures var answers := Run(t, ops).1;
      && |answers| == |ops| && answers[g].Got? && answers[g].value.Some?
      && answers[g].value.value <= ops[a].value
      && |answers[g].value.value| == if ops[g].length < |ops[a].value| then ops[g].length else |ops[a].value|
  {
    TableRefinesMap(t, ops, names);
    MapAddedIsFound(Map(t.rows), NameLimit(t.maxNameLen), t.maxValueLen, ops, a, g);
  }

  /** THEOREM. And a lookup of a name that was never added, or taken out after each accepted add of it,
    * finds nothing. */
  lemma RemovedIsNotFound(t: Table, ops: seq<Op>, names: set<Name>, g: nat)
    requires Good(t) && Apart(names) && Map(t.rows).Keys <= names
    requires forall k :: 0 <= k < |ops| ==> ops[k].name in names
    requires g < |ops| && ops[g].GetOp? && (ops[g].name in Map(t.rows) ==> OutBetween(ops, -1, g, ops[g].name))
    requires forall a :: 0 <= a < g && Accepted(ops, Run(t, ops).1, a, ops[g].name) ==> OutBetween(ops, a, g, ops[g].name)
    ensures |Run(t, ops).1| == |ops| && Run(t, ops).1[g] == Got(None)
  {
    TableRefinesMap(t, ops, names);
    MapRemovedIsNotFound(Map(t.rows), NameLimit(t.maxNameLen), t.maxValueLen, ops, g);
  }

  /** Deleting the instance: the first entry is removed until none is left. */
  function RemoveAll(t: Table): (t': Table)
    requires t.count >= |t.rows|
    ensures t'.rows == [] && t'.count == t.count - |t.rows|
    decreases |t.rows|
  {
    if t.rows == [] then t else RemoveAll(RemoveRow(t, 0))
  }

  function Empty(maxNameLen: nat, maxValueLen: nat): Table {
    Table([], 0, maxNameLen, maxValueLen, true)
  }

  function Single(e: Entry): Table {
    Table([Row(e, [])], 1, 16, 4, true)
  }

  lemma FirstAdd(x: Name, v: Bytes)
    requires |x| < 16 && |v| == 4
    ensures Add(Empty(16, 4), x, v) == (Single(Entry(Hash(x), x, v)), true) && Good(Single(Entry(Hash(x), x, v)))
  {
    assert Add(Empty(16, 4), x, v).0.rows == [Row(Entry(Hash(x), x, v), [])];
  }

  lemma SecondAdd(e: Entry, y: Name, w: Bytes)
    requires e.name != y && e.hash == Hash(y) && |y| < 16 && |w| == 4
    ensures Add(Single(e), y, w) == (Table([Row(e, [Entry(Hash(y), y, w)])], 2, 16, 4, true), true)
  {
    assert AddStop(Single(e).rows, Hash(y), y, true) == 0;
    assert Add(Single(e), y, w).0.rows[0].chain == [Entry(Hash(y), y, w)];
    assert Add(Single(e), y, w).0.rows == [Row(e, [Entry(Hash(y), y, w)])];
  }

  /** What goes wrong when two names collide: the second add is accepted, a lookup of it gives the value
    * of the first, and removing the first loses both but still counts one. */
  lemma CollidingNames(x: Name, y: Name, v: Bytes, w: Bytes)
    requires x != y && Hash(x) == Hash(y) && |x| < 16 && |y| < 16 && |v| == |w| == 4
    ensures var t1 := Add(Empty(16, 4), x, v).0;
      var (t2, ok) := Add(t1, y, w);
      && Good(t1) && ok && GetLocal(t2, y, 4) == Some(v)
      && Remove(t2, x) == (Empty(16, 4).(count := 1), true)
  {
    var e := Entry(Hash(x), x, v);
    FirstAdd(x, v);
    SecondAdd(e, y, w);
    var t2 := Add(Single(e), y, w).0;
    assert FindHash(t2.rows, Hash(x)) == 0;
    assert Prefix(v, 4) == v;
    assert RemoveRow(t2, 0) == Empty(16, 4).(count := 1);
  }

  /** THEOREM. And there are such names: for any two values, names under which all that happens. */
  lemma CollidingNamesExist(v: Bytes, w: Bytes) returns (x: Name, y: Name)
    requires |v| == |w| == 4
    ensures x != y && Hash(x) == Hash(y) && |x| == |y| == 5
    ensures var t1 := Add(Empty(16, 4), x, v).0;
      var (t2, ok) := Add(t1, y, w);
      && Good(t1) && ok && GetLocal(t2, y, 4) == Some(v)
      && Remove(t2, x) == (Empty(16, 4).(count := 1), true)
  {
    x, y := WindowOfFiveCollides();
    CollidingNames(x, y, v, w);
  }
}
