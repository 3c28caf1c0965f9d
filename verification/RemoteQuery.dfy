/** Name queries to a remote processor: requests carry sequence numbers, the remote processor looks the
  * name up when it gets the request, the listener keeps only the latest reply and posts one token for
  * it, and the waiting caller ignores replies of other queries. Attaching and detaching processors use
  * the same tokens: they raise an event at the listener and wait for the token it posts in answer. */
module RemoteQuery {
  import opened Counting

  type Key = string
  type Value = seq<bv8>

  datatype Outcome = Found(value: Value) | Absent

  datatype Request = Request(seqNum: nat, key: Key)
  datatype Reply = Reply(seqNum: nat, outcome: Outcome)

  datatype Result = Success(value: Value) | NotFound | Timeout

  /** What a finished query returned. */
  datatype Entry = Entry(seqNum: nat, result: Result)

  type Names = map<Key, Value>

  /** requests and replies are on their way. cache is the listener's copy of the latest reply, at first
    * all zero, tokens the semaphore the daemon's thread waits on, in a query or in an attach or detach.
    * event is the listener's event counter, and listening says that the listener has not ended. tables are
    * the tables the remote processor has had, the last one its present table. History: asked[n] is the key
    * of query n, began[n] and given[n] the table at the moment it was sent and at the moment it was
    * answered, log the queries that returned. */
  datatype State = State(
    requests: seq<Request>, replies: seq<Reply>, cache: Reply, tokens: nat, waiting: bool,
    event: nat, listening: bool, attaching: bool,
    tables: seq<Names>, asked: seq<Key>, began: seq<nat>, given: map<nat, nat>, log: seq<Entry>)

  const REFRESH: nat := 2
  const SHUTDOWN: nat := 4

  /** Refresh is the write of an attach or detach, Listen the listener's handling of its events, TakeAck
    * the read that waits for the answer and AckLost such a read that fails, which is only logged. */
  datatype Step =
    | Begin(key: Key)
    | Answer(i: nat)
    | Change(table: Names)
    | LoseRequest(i: nat)
    | LoseReply(i: nat)
    | Deliver(i: nat)
    | Wake
    | GiveUp
    | Refresh
    | Listen
    | TakeAck
    | AckLost

  function RemoveAt<T>(s: seq<T>, i: nat): seq<T>
    requires i < |s|
  {
    s[..i] + s[i + 1..]
  }

  /** The sequence number of the query that waits. */
  function Current(s: State): nat
    requires s.asked != []
  {
    |s.asked| - 1
  }

  /** The moment, as the number of the present table. */
  function Now(s: State): nat {
    if s.tables == [] then 0 else |s.tables| - 1
  }

  function Lookup(tables: seq<Names>, at: nat, key: Key): Outcome {
    if at < |tables| && key in tables[at] then Found(tables[at][key]) else Absent
  }

  predicate Can(s: State, a: Step) {
    match a
    case Begin(_) => !s.waiting && !s.attaching
    case Answer(i) => i < |s.requests|
    case Change(_) => true
    case LoseRequest(i) => i < |s.requests|
    case LoseReply(i) => i < |s.replies|
    case Deliver(i) => i < |s.replies| && s.listening
    case Wake => s.waiting && s.asked != [] && s.tokens > 0
    case GiveUp => s.waiting && s.asked != []
    case Refresh => !s.waiting && !s.attaching
    case Listen => s.listening && s.event > 0
    case TakeAck => s.attaching && s.tokens > 0
    case AckLost => s.attaching
  }

  predicate HasBit(event: nat, bit: nat)
    requires bit > 0
  {
    event / bit % 2 == 1
  }

  /** The listener reads its counter, in which the events written since have been added up. */
  function ApplyListen(s: State): State {
    s.(event := 0, listening := !HasBit(s.event, SHUTDOWN),
       tokens := s.tokens + One(HasBit(s.event, REFRESH)))
  }

  /** The caller took a token: a reply of another query is ignored and the wait goes on. */
  function ApplyWake(s: State): State
    requires Can(s, Wake)
  {
    var t := s.(tokens := s.tokens - 1);
    if s.cache.seqNum != Current(s) then t
    else
      var r := match s.cache.outcome
               case Found(v) => Success(v)
               case Absent => NotFound;
      t.(waiting := false, log := s.log + [Entry(Current(s), r)])
  }

  function Apply(s: State, a: Step): State
    requires Can(s, a)
  {
    match a
    case Begin(key) =>
      s.(waiting := true, asked := s.asked + [key], requests := s.requests + [Request(|s.asked|, key)],
         began := s.began + [Now(s)])
    case Answer(i) =>
      var n := s.requests[i].seqNum;
      s.(requests := RemoveAt(s.requests, i), given := s.given[n := Now(s)],
         replies := s.replies + [Reply(n, Lookup(s.tables, Now(s), s.requests[i].key))])
    case Change(table) => s.(tables := s.tables + [table])
    case LoseRequest(i) => s.(requests := RemoveAt(s.requests, i))
    case LoseReply(i) => s.(replies := RemoveAt(s.replies, i))
    case Deliver(i) =>
      s.(replies := RemoveAt(s.replies, i), cache := s.replies[i], tokens := s.tokens + 1)
    case Wake => ApplyWake(s)
    case GiveUp => s.(waiting := false, log := s.log + [Entry(Current(s), Timeout)])
    case Refresh => s.(event := s.event + REFRESH, attaching := true)
    case Listen => ApplyListen(s)
    case TakeAck => s.(tokens := s.tokens - 1, attaching := false)
    case AckLost => s.(attaching := false)
  }

  function Start(table: Names): State {
    State([], [], Reply(0, Absent), 0, false, 0, true, false, [table], [], [], map[], [])
  }

  // ---------------------------------------------------------------- invariant

  /** A request on its way is not answered yet, is for the key that was asked, and is there once. */
  ghost predicate RequestsInv(s: State) {
    && (forall i :: 0 <= i < |s.requests| ==>
         && s.requests[i].seqNum < |s.asked| && s.requests[i].key == s.asked[s.requests[i].seqNum]
         && s.requests[i].seqNum !in s.given)
    && (forall i, j :: 0 <= i < j < |s.requests| ==> s.requests[i].seqNum != s.requests[j].seqNum)
    && (forall n :: n in s.given ==> n < |s.asked|)
  }

  /** The remote processor looked the key of query n up after the query was sent, with this outcome. */
  ghost predicate IsGiven(s: State, n: nat, outcome: Outcome) {
    && n in s.given && n < |s.asked| && n < |s.began|
    && s.began[n] <= s.given[n] < |s.tables|
    && outcome == Lookup(s.tables, s.given[n], s.asked[n])
  }

  ghost predicate RepliesInv(s: State) {
    && s.tables != [] && |s.began| == |s.asked|
    && (forall n :: 0 <= n < |s.began| ==> s.began[n] <= Now(s))
    && (forall i :: 0 <= i < |s.replies| ==> IsGiven(s, s.replies[i].seqNum, s.replies[i].outcome))
    && (IsGiven(s, s.cache.seqNum, s.cache.outcome) || s.cache == Reply(0, Absent))
  }

  /** A returned value is the one given in answer to the same query. */
  ghost predicate LogInv(s: State) {
    forall k :: 0 <= k < |s.log| ==> EntryOk(s, s.log[k])
  }

  ghost predicate EntryOk(s: State, e: Entry) {
    && (e.result.Success? ==> IsGiven(s, e.seqNum, Found(e.result.value)))
    && (e.result.NotFound? ==> e.seqNum == 0 || IsGiven(s, e.seqNum, Absent))
  }

  /** Every query has returned once, except the one that waits. */
  ghost predicate OnceInv(s: State) {
    && |s.asked| == |s.log| + One(s.waiting) && !(s.waiting && s.attaching)
    && (forall k :: 0 <= k < |s.log| ==> s.log[k].seqNum == k)
  }

  ghost predicate Inv(s: State) {
    RequestsInv(s) && RepliesInv(s) && LogInv(s) && OnceInv(s)
  }

  lemma RemoveKeeps(s: State, i: nat)
    requires RequestsInv(s) && i < |s.requests|
    ensures RequestsInv(s.(requests := RemoveAt(s.requests, i)))
    ensures s.requests[i].seqNum !in set j | 0 <= j < |s.requests| - 1 :: RemoveAt(s.requests, i)[j].seqNum
  {
  }

  /** What was given stays given while the histories grow. */
  ghost predicate Extends(s: State, s': State) {
    && s.tables <= s'.tables && s.asked <= s'.asked && s.began <= s'.began
    && (forall n :: n in s.given ==> n in s'.given && s'.given[n] == s.given[n])
  }

  lemma GivenStays(s: State, s': State, n: nat, outcome: Outcome)
    requires Extends(s, s') && IsGiven(s, n, outcome)
    ensures IsGiven(s', n, outcome)
  {
  }

  lemma StepExtends(s: State, a: Step)
    requires RequestsInv(s) && Can(s, a)
    ensures Extends(s, Apply(s, a))
  {
  }

  lemma LogStays(s: State, s': State)
    requires Extends(s, s') && LogInv(s) && s'.log == s.log
    ensures LogInv(s')
  {
    forall k | 0 <= k < |s.log| ensures EntryOk(s', s'.log[k]) {
      assert EntryOk(s, s.log[k]);
    }
  }

  lemma RepliesStay(s: State, s': State)
    requires Extends(s, s') && RepliesInv(s) && |s'.began| == |s'.asked| && s'.cache == s.cache
    requires forall n :: 0 <= n < |s'.began| ==> s'.began[n] <= Now(s')
    requires s.replies == s'.replies
    ensures RepliesInv(s')
  {
    forall i | 0 <= i < |s'.replies| ensures IsGiven(s', s'.replies[i].seqNum, s'.replies[i].outcome) {
      GivenStays(s, s', s.replies[i].seqNum, s.replies[i].outcome);
    }
  }

  lemma AnswerKeeps(s: State, i: nat)
    requires Inv(s) && Can(s, Answer(i))
    ensures Inv(Apply(s, Answer(i)))
  {
    RemoveKeeps(s, i);
    StepExtends(s, Answer(i));
    var s' := Apply(s, Answer(i));
    var n := s.requests[i].seqNum;
    forall j | 0 <= j < |s'.requests| ensures s'.requests[j].seqNum != n {
      assert s'.requests[j] == s.requests[if j < i then j else j + 1];
    }
    LogStays(s, s');
    RepliesStay(s, s'.(replies := s.replies));
    assert IsGiven(s', n, s'.replies[|s.replies|].outcome);
  }

  lemma BeginKeeps(s: State, key: Key)
    requires Inv(s) && Can(s, Begin(key))
    ensures Inv(Apply(s, Begin(key)))
  {
    var s' := Apply(s, Begin(key));
    LogStays(s, s');
    RepliesStay(s, s');
  }

  lemma ChangeKeeps(s: State, table: Names)
    requires Inv(s)
    ensures Inv(Apply(s, Change(table)))
  {
    var s' := Apply(s, Change(table));
    LogStays(s, s');
    RepliesStay(s, s');
  }

  /** A caller that wakes up with the reply of its query returns what was given for it. */
  lemma WakeKeeps(s: State)
    requires Inv(s) && Can(s, Wake)
    ensures Inv(ApplyWake(s))
  {
    var s' := ApplyWake(s);
    if s.cache.seqNum == Current(s) {
      assert EntryOk(s', s'.log[|s.log|]);
      assert LogInv(s'.(log := s.log)) by {
        LogStays(s, s'.(log := s.log));
      }
      forall k | 0 <= k < |s.log| ensures EntryOk(s', s'.log[k]) {
        assert EntryOk(s'.(log := s.log), s.log[k]);
      }
    } else {
      LogStays(s, s');
    }
  }

  lemma GiveUpKeeps(s: State)
    requires Inv(s) && Can(s, GiveUp)
    ensures Inv(Apply(s, GiveUp))
  {
    var s' := Apply(s, GiveUp);
    forall k | 0 <= k < |s.log| ensures EntryOk(s', s'.log[k]) {
      assert EntryOk(s, s.log[k]);
    }
  }

  lemma LoseRequestKeeps(s: State, i: nat)
    requires Inv(s) && Can(s, LoseRequest(i))
    ensures Inv(Apply(s, LoseRequest(i)))
  {
    var s' := Apply(s, LoseRequest(i));
    LogStays(s, s');
    RemoveKeeps(s, i);
    RepliesStay(s, s');
  }

  /** A reply leaves the transport, lost or saved by the listener. */
  lemma ReplyKeeps(s: State, a: Step)
    requires Inv(s) && Can(s, a) && (a.LoseReply? || a.Deliver?)
    ensures Inv(Apply(s, a))
  {
    var s' := Apply(s, a);
    LogStays(s, s');
    assert IsGiven(s, s.replies[a.i].seqNum, s.replies[a.i].outcome);
    forall k | 0 <= k < |s'.replies| ensures IsGiven(s', s'.replies[k].seqNum, s'.replies[k].outcome) {
      assert s'.replies[k] == s.replies[if k < a.i then k else k + 1];
      GivenStays(s, s', s'.replies[k].seqNum, s'.replies[k].outcome);
    }
    if IsGiven(s, s'.cache.seqNum, s'.cache.outcome) {
      GivenStays(s, s', s'.cache.seqNum, s'.cache.outcome);
    }
  }

  /** Attaches and detaches touch only tokens and events. */
  lemma AttachKeeps(s: State, a: Step)
    requires Inv(s) && Can(s, a) && (a.Refresh? || a.Listen? || a.TakeAck? || a.AckLost?)
    ensures Inv(Apply(s, a))
  {
    LogStays(s, Apply(s, a));
    RepliesStay(s, Apply(s, a));
  }

  lemma StepKeepsInv(s: State, a: Step)
    requires Inv(s) && Can(s, a)
    ensures Inv(Apply(s, a))
  {
    match a
    case Begin(key) => BeginKeeps(s, key);
    case Answer(i) => AnswerKeeps(s, i);
    case Change(table) => ChangeKeeps(s, table);
    case Wake => WakeKeeps(s);
    case GiveUp => GiveUpKeeps(s);
    case LoseRequest(i) => LoseRequestKeeps(s, i);
    case LoseReply(_) => ReplyKeeps(s, a);
    case Deliver(_) => ReplyKeeps(s, a);
    case _ => AttachKeeps(s, a);
  }

  // ---------------------------------------------------------------- runs

  ghost predicate Reaches(s: State, steps: seq<Step>, s': State)
    decreases |steps|
  {
    if steps == [] then s' == s
    else
      var last := |steps| - 1;
      exists u :: Reaches(s, steps[..last], u) && Can(u, steps[last]) && s' == Apply(u, steps[last])
  }

  lemma {:induction false} EveryRunKeepsInv(table: Names, steps: seq<Step>, s: State)
    requires Reaches(Start(table), steps, s)
    ensures Inv(s)
    decreases |steps|
  {
    if steps != [] {
      var last := |steps| - 1;
      var u :| Reaches(Start(table), steps[..last], u) && Can(u, steps[last]) && s == Apply(u, steps[last]);
      EveryRunKeepsInv(table, steps[..last], u);
      StepKeepsInv(u, steps[last]);
    }
  }

  // ---------------------------------------------------------------- the first query

  /** The token that the listener is about to post for an attach or detach. */
  function Acks(s: State): nat {
    One(s.listening && HasBit(s.event, REFRESH))
  }

  /** Until the listener has got a reply, there is no token but the one that an attach waits for. */
  ghost predicate Balanced(s: State) {
    IsGiven(s, s.cache.seqNum, s.cache.outcome) || s.tokens + Acks(s) <= One(s.attaching)
  }

  /** The first query has not returned yet and is safe from stray tokens, or its answer is sound. */
  ghost predicate FirstOk(s: State) {
    if s.log == [] then Balanced(s)
    else s.log[0].result.NotFound? ==> IsGiven(s, 0, Absent)
  }

  lemma FirstWake(s: State)
    requires Inv(s) && FirstOk(s) && Can(s, Wake)
    ensures FirstOk(ApplyWake(s))
  {
    assert s.log == [] ==> IsGiven(s, s.cache.seqNum, s.cache.outcome);
  }

  /** Every step keeps it, but for a failed read of an attach before the first query. */
  lemma FirstStep(s: State, a: Step)
    requires Inv(s) && FirstOk(s) && Can(s, a) && (a.AckLost? ==> s.asked != [])
    ensures FirstOk(Apply(s, a))
  {
    StepExtends(s, a);
    if a.Wake? {
      FirstWake(s);
    } else {
      var s' := Apply(s, a);
      if a.Deliver? {
        assert IsGiven(s, s'.cache.seqNum, s'.cache.outcome);
      } else if IsGiven(s, s.cache.seqNum, s.cache.outcome) {
        GivenStays(s, s', s.cache.seqNum, s.cache.outcome);
      }
      if s.log != [] && s.log[0].result.NotFound? {
        GivenStays(s, s', 0, Absent);
      }
    }
  }

  lemma {:induction false} FirstRun(table: Names, steps: seq<Step>, s: State)
    requires Reaches(Start(table), steps, s) && AckLost !in steps
    ensures FirstOk(s)
    decreases |steps|
  {
    if steps != [] {
      var last := |steps| - 1;
      var u :| Reaches(Start(table), steps[..last], u) && Can(u, steps[last]) && s == Apply(u, steps[last]);
      FirstRun(table, steps[..last], u);
      EveryRunKeepsInv(table, steps[..last], u);
      FirstStep(u, steps[last]);
    }
  }

  lemma {:induction false} FirstRunOn(u: State, steps: seq<Step>, s: State)
    requires Inv(u) && FirstOk(u) && u.asked != [] && Reaches(u, steps, s)
    ensures Inv(s) && FirstOk(s) && s.asked != []
    decreases |steps|
  {
    if steps != [] {
      var last := |steps| - 1;
      var v :| Reaches(u, steps[..last], v) && Can(v, steps[last]) && s == Apply(v, steps[last]);
      FirstRunOn(u, steps[..last], v);
      StepKeepsInv(v, steps[last]);
      FirstStep(v, steps[last]);
    }
  }

  // ---------------------------------------------------------------- theorems

  /** The key was absent from the remote table at some moment after query n was sent. */
  ghost predicate WasAbsent(s: State, n: nat)
    requires n < |s.began| && n < |s.asked|
  {
    exists at: nat :: s.began[n] <= at < |s.tables| && s.asked[n] !in s.tables[at]
  }

  /** THEOREM. With requests and replies delayed, lost or reordered in any way, replies of queries that
    * timed out, a remote table that changes, and processors attached and detached in between: query n
    * returns once; it succeeds only with the value the remote table had for its own key at some moment
    * after it was sent; and it reports not-found only if the key was absent at such a moment. For the very
    * first query the last holds while no read of an attach or detach has failed. */
  lemma FreshAnswersOnly(table: Names, steps: seq<Step>, s: State, n: nat)
    requires Reaches(Start(table), steps, s) && n < |s.log|
    ensures |s.asked| == |s.began| == |s.log| + One(s.waiting) && s.log[n].seqNum == n
    ensures s.log[n].result.Success? ==>
      exists at: nat :: s.began[n] <= at < |s.tables| && s.asked[n] in s.tables[at]
        && s.tables[at][s.asked[n]] == s.log[n].result.value
    ensures s.log[n].result.NotFound? && (n > 0 || AckLost !in steps) ==> WasAbsent(s, n)
  {
    EveryRunKeepsInv(table, steps, s);
    assert EntryOk(s, s.log[n]);
    if AckLost !in steps {
      FirstRun(table, steps, s);
    }
    if !s.log[n].result.Timeout? && n in s.given {
      var at := s.given[n];
      assert Lookup(s.tables, at, s.asked[n]).Found? ==> s.asked[n] in s.tables[at];
    }
  }

  /** THEOREM. Whatever has happened before, the first query's not-found is right in every run that
    * follows if, at the moment it begins, no token is there or about to be posted. */
  lemma FirstQuerySound(table: Names, before: seq<Step>, u: State, key: Key, steps: seq<Step>, s: State)
    requires Reaches(Start(table), before, u) && u.asked == [] && Can(u, Begin(key))
    requires u.tokens + Acks(u) == 0
    requires Reaches(Apply(u, Begin(key)), steps, s) && s.log != []
    ensures |s.began| > 0 && |s.asked| > 0
    ensures s.log[0].result.NotFound? ==> WasAbsent(s, 0)
  {
    EveryRunKeepsInv(table, before, u);
    StepKeepsInv(u, Begin(key));
    FirstRunOn(Apply(u, Begin(key)), steps, s);
    if s.log[0].result.NotFound? {
      assert s.asked[0] !in s.tables[s.given[0]];
    }
  }

  lemma Append(s: State, steps: seq<Step>, u: State, a: Step, s': State)
    requires Reaches(s, steps, u) && Can(u, a) && s' == Apply(u, a)
    ensures Reaches(s, steps + [a], s')
  {
    assert (steps + [a])[..|steps|] == steps;
  }

  /** THEOREM. And otherwise the query can miss: the token wakes it before its request has been answered,
    * and it reports not-found, whatever key is asked for and whatever the remote table holds, because the
    * listener's copy is all zero, as is the first sequence number. */
  lemma FirstQueryMisses(table: Names, before: seq<Step>, u: State, key: Key) returns (steps: seq<Step>, s: State)
    requires Reaches(Start(table), before, u) && u.asked == [] && Can(u, Begin(key))
    requires u.tokens + Acks(u) > 0
    ensures Reaches(Start(table), before + [Begin(key)] + steps, s)
    ensures s.log == [Entry(0, NotFound)] && s.tables == u.tables
  {
    EveryRunKeepsInv(table, before, u);
    assert u.cache == Reply(0, Absent) && u.log == [];
    var b := Apply(u, Begin(key));
    Append(Start(table), before, u, Begin(key), b);
    steps, s := MissRun(table, before + [Begin(key)], b);
  }

  lemma MissRun(table: Names, before: seq<Step>, b: State) returns (steps: seq<Step>, s: State)
    requires Reaches(Start(table), before, b) && b.cache == Reply(0, Absent) && b.log == []
    requires b.waiting && |b.asked| == 1 && b.tokens + Acks(b) > 0
    ensures Reaches(Start(table), before + steps, s)
    ensures s.log == [Entry(0, NotFound)] && s.tables == b.tables
  {
    if b.tokens > 0 {
      s := Apply(b, Wake);
      Append(Start(table), before, b, Wake, s);
      steps := [Wake];
    } else {
      var l := Apply(b, Listen);
      Append(Start(table), before, b, Listen, l);
      s := Apply(l, Wake);
      Append(Start(table), before + [Listen], l, Wake, s);
      steps := [Listen, Wake];
      assert before + steps == before + [Listen] + [Wake];
    }
  }

  /** Where a stray token comes from: an attach whose read of the answer fails. The first query after it
    * misses a key that the remote table holds all the time. */
  lemma LostAckRun(table: Names, key: Key) returns (steps: seq<Step>, s: State)
    requires key in table
    ensures Reaches(Start(table), steps, s)
    ensures s.log == [Entry(0, NotFound)] && s.tables == [table]
  {
    var s0 := Start(table);
    var s1 := Apply(s0, Refresh);
    Append(s0, [], s0, Refresh, s1);
    var s2 := Apply(s1, AckLost);
    Append(s0, [] + [Refresh], s1, AckLost, s2);
    var before := [] + [Refresh] + [AckLost];
    steps, s := FirstQueryMisses(table, before, s2, key);
    steps := before + [Begin(key)] + steps;
  }

  // ---------------------------------------------------------------- the listener's end

  /** At most one thing is on its way to the daemon's thread: what it waits for. */
  ghost predicate Calm(s: State) {
    && s.listening && (s.event % 8 == 0 || s.event % 8 == REFRESH)
    && |s.requests| + |s.replies| + s.tokens + One(s.event % 8 == REFRESH) <= One(s.waiting) + One(s.attaching)
    && !(s.waiting && s.attaching) && (s.event % 8 == REFRESH ==> s.attaching)
    && (s.waiting && s.tokens > 0 ==> s.cache.seqNum == |s.asked| - 1)
    && (forall i :: 0 <= i < |s.replies| ==> s.replies[i].seqNum == |s.asked| - 1)
    && (forall i :: 0 <= i < |s.requests| ==> s.requests[i].seqNum == |s.asked| - 1)
  }

  lemma CalmAttach(s: State, a: Step)
    requires Calm(s) && Can(s, a) && (a.Refresh? || a.Listen? || a.TakeAck?)
    ensures Calm(Apply(s, a))
  {
  }

  lemma CalmAnswer(s: State, i: nat)
    requires Calm(s) && Can(s, Answer(i))
    ensures Calm(Apply(s, Answer(i)))
  {
    assert |s.requests| == 1 && |s.replies| == 0;
    assert Apply(s, Answer(i)).requests == [];
  }

  /** What is on its way is one request, one reply or nothing. */
  lemma CalmTransport(s: State, a: Step)
    requires Calm(s) && Can(s, a) && (a.LoseRequest? || a.LoseReply? || a.Deliver?)
    ensures Calm(Apply(s, a))
  {
    if a.LoseRequest? {
      assert Apply(s, a).requests == [];
    } else {
      assert Apply(s, a).replies == [];
    }
  }

  lemma CalmQuery(s: State, a: Step)
    requires Calm(s) && Can(s, a) && (a.Begin? || a.Change? || a.Wake?)
    ensures Calm(Apply(s, a))
  {
    var s' := Apply(s, a);
    if a.Begin? {
      assert s'.requests == [Request(|s.asked|, a.key)];
    } else if a.Wake? {
      assert s.requests == [] && s.replies == [];
    } else {
      assert s' == s.(tables := s'.tables);
    }
  }

  lemma CalmStep(s: State, a: Step)
    requires Calm(s) && Can(s, a) && !a.GiveUp? && !a.AckLost?
    ensures Calm(Apply(s, a))
  {
    match a
    case Answer(i) => CalmAnswer(s, i);
    case LoseRequest(_) => CalmTransport(s, a);
    case LoseReply(_) => CalmTransport(s, a);
    case Deliver(_) => CalmTransport(s, a);
    case Begin(_) => CalmQuery(s, a);
    case Change(_) => CalmQuery(s, a);
    case Wake => CalmQuery(s, a);
    case _ => CalmAttach(s, a);
  }

  lemma {:induction false} CalmRun(u: State, steps: seq<Step>, s: State)
    requires Calm(u) && Reaches(u, steps, s) && Harmless(steps)
    ensures Calm(s)
    decreases |steps|
  {
    if steps != [] {
      var last := |steps| - 1;
      var v :| Reaches(u, steps[..last], v) && Can(v, steps[last]) && s == Apply(v, steps[last]);
      CalmRun(u, steps[..last], v);
      CalmStep(v, steps[last]);
    }
  }

  /** No query times out, and no read of an attach or detach fails. */
  predicate Harmless(steps: seq<Step>) {
    GiveUp !in steps && AckLost !in steps
  }

  /** The daemon's thread is in no query, attach or detach. */
  predicate AtRest(s: State) {
    s.listening && !s.waiting && !s.attaching
  }

  /** No message is on its way, no token is left over, and the event counter shows no event. */
  predicate Clear(s: State) {
    s.requests == [] && s.replies == [] && s.tokens == 0 && s.event % 8 == 0
  }

  /** One step more, and then the rest. */
  lemma Prepend(before: seq<Step>, a: Step, more: seq<Step>)
    requires Harmless([a]) && Harmless(more)
    ensures before + ([a] + more) == (before + [a]) + more && Harmless([a] + more)
  {
  }

  /** What a REFRESH makes of the counter. */
  lemma RefreshAdds(event: nat)
    ensures event % 8 == 0 ==> (event + REFRESH) % 8 == REFRESH
    ensures event % 8 == REFRESH ==> HasBit(event + REFRESH, SHUTDOWN)
  {
  }

  lemma EventCases(event: nat)
    requires event % REFRESH == 0
    ensures HasBit(event, SHUTDOWN) || event % 8 == REFRESH || event % 8 == 0
  {
  }

  lemma StopByListen(start: State, before: seq<Step>, u: State) returns (steps: seq<Step>, s: State)
    requires Reaches(start, before, u) && u.listening && HasBit(u.event, SHUTDOWN)
    ensures Reaches(start, before + steps, s) && Harmless(steps) && !s.listening
  {
    s := Apply(u, Listen);
    Append(start, before, u, Listen, s);
    steps := [Listen];
  }

  /** An attach while the event of another is still pending: two times REFRESH is SHUTDOWN. */
  lemma StopByRefresh(start: State, before: seq<Step>, u: State) returns (steps: seq<Step>, s: State)
    requires Reaches(start, before, u) && AtRest(u) && u.event % 8 == REFRESH
    ensures Reaches(start, before + steps, s) && Harmless(steps) && !s.listening
  {
    RefreshAdds(u.event);
    var v := u.(event := u.event + REFRESH, attaching := true);
    Append(start, before, u, Refresh, v);
    var more;
    more, s := StopByListen(start, before + [Refresh], v);
    Prepend(before, Refresh, more);
    steps := [Refresh] + more;
  }

  /** An attach that takes a token left over for its answer, and returns before the listener has run. */
  lemma StopByToken(start: State, before: seq<Step>, u: State) returns (steps: seq<Step>, s: State)
    requires Reaches(start, before, u) && AtRest(u) && u.event % 8 == 0 && u.tokens > 0
    ensures Reaches(start, before + steps, s) && Harmless(steps) && !s.listening
  {
    RefreshAdds(u.event);
    var w := TakeLeftOver(start, before, u);
    var more;
    more, s := StopByRefresh(start, before + [Refresh] + [TakeAck], w);
    Prepend(before + [Refresh], TakeAck, more);
    Prepend(before, Refresh, [TakeAck] + more);
    steps := [Refresh] + ([TakeAck] + more);
  }

  lemma TakeLeftOver(start: State, before: seq<Step>, u: State) returns (w: State)
    requires Reaches(start, before, u) && AtRest(u) && u.tokens > 0
    ensures Reaches(start, before + [Refresh] + [TakeAck], w)
    ensures AtRest(w) && w.event == u.event + REFRESH
  {
    var v := u.(event := u.event + REFRESH, attaching := true);
    Append(start, before, u, Refresh, v);
    w := u.(event := u.event + REFRESH, tokens := u.tokens - 1);
    Append(start, before + [Refresh], v, TakeAck, w);
  }

  lemma StopByReply(start: State, before: seq<Step>, u: State) returns (steps: seq<Step>, s: State)
    requires Reaches(start, before, u) && AtRest(u) && u.event % 8 == 0 && u.replies != []
    ensures Reaches(start, before + steps, s) && Harmless(steps) && !s.listening
  {
    var v := Apply(u, Deliver(0));
    Append(start, before, u, Deliver(0), v);
    var more;
    more, s := StopByToken(start, before + [Deliver(0)], v);
    Prepend(before, Deliver(0), more);
    steps := [Deliver(0)] + more;
  }

  lemma StopByRequest(start: State, before: seq<Step>, u: State) returns (steps: seq<Step>, s: State)
    requires Reaches(start, before, u) && AtRest(u) && u.event % 8 == 0 && u.requests != []
    ensures Reaches(start, before + steps, s) && Harmless(steps) && !s.listening
  {
    var v := Apply(u, Answer(0));
    Append(start, before, u, Answer(0), v);
    var more;
    more, s := StopByReply(start, before + [Answer(0)], v);
    Prepend(before, Answer(0), more);
    steps := [Answer(0)] + more;
  }

  /** Anything left over is enough to stop the listener. */
  lemma StopByLeftOver(start: State, before: seq<Step>, u: State) returns (steps: seq<Step>, s: State)
    requires Reaches(start, before, u) && AtRest(u) && u.event % REFRESH == 0 && !Clear(u)
    ensures Reaches(start, before + steps, s) && Harmless(steps) && !s.listening
  {
    EventCases(u.event);
    if HasBit(u.event, SHUTDOWN) {
      steps, s := StopByListen(start, before, u);
    } else if u.event % 8 == REFRESH {
      steps, s := StopByRefresh(start, before, u);
    } else if u.tokens > 0 {
      steps, s := StopByToken(start, before, u);
    } else if u.replies != [] {
      steps, s := StopByReply(start, before, u);
    } else {
      steps, s := StopByRequest(start, before, u);
    }
  }

  lemma EvenStep(s: State, a: Step)
    requires s.event % REFRESH == 0 && Can(s, a)
    ensures Apply(s, a).event % REFRESH == 0
  {
    assert Apply(s, a).event == s.event || Apply(s, a).event == s.event + REFRESH || Apply(s, a).event == 0;
  }

  lemma {:induction false} EventEven(table: Names, steps: seq<Step>, s: State)
    requires Reaches(Start(table), steps, s)
    ensures s.event % REFRESH == 0
    decreases |steps|
  {
    if steps != [] {
      var last := |steps| - 1;
      var u :| Reaches(Start(table), steps[..last], u) && Can(u, steps[last]) && s == Apply(u, steps[last]);
      EventEven(table, steps[..last], u);
      EvenStep(u, steps[last]);
    }
  }

  /** The listener goes on in every run from u in which no query times out and no read fails. */
  ghost predicate StaysOn(u: State) {
    forall steps, s :: Reaches(u, steps, s) && Harmless(steps) ==> s.listening
  }

  /** THEOREM. Whatever has happened before, when the daemon's thread is at rest the listener goes on
    * through all further queries, attaches and detaches, none timing out or failing, if and only if nothing
    * is left over: no message on its way, no token, no event. */
  lemma ListenerStaysIff(table: Names, before: seq<Step>, u: State)
    requires Reaches(Start(table), before, u) && AtRest(u)
    ensures StaysOn(u) <==> Clear(u)
  {
    if Clear(u) {
      forall steps, s | Reaches(u, steps, s) && Harmless(steps) ensures s.listening {
        CalmRun(u, steps, s);
      }
    } else {
      EventEven(table, before, u);
      assert Reaches(u, [], u);
      var steps, s := StopByLeftOver(u, [], u);
      assert [] + steps == steps;
    }
  }

  /** While no query has timed out and no read of an attach or detach has failed, the listener goes on. */
  lemma ListenerStays(table: Names, steps: seq<Step>, s: State)
    requires Reaches(Start(table), steps, s) && GiveUp !in steps && AckLost !in steps
    ensures s.listening
  {
    assert Reaches(Start(table), [], Start(table));
    ListenerStaysIff(table, [], Start(table));
  }

  /** A query times out and its reply comes late: its token is there for nobody. */
  lemma LateReply(table: Names, key: Key) returns (steps: seq<Step>, s: State)
    ensures Reaches(Start(table), steps, s) && AckLost !in steps
    ensures s.tokens == 1 && s.event == 0 && s.listening && !s.waiting && !s.attaching
  {
    var s0 := Start(table);
    var s1 := Apply(s0, Begin(key));
    Append(s0, [], s0, Begin(key), s1);
    var s2 := Apply(s1, Answer(0));
    Append(s0, [] + [Begin(key)], s1, Answer(0), s2);
    steps, s := ReplyAfterTimeout(s0, [] + [Begin(key)] + [Answer(0)], s2);
  }

  lemma ReplyAfterTimeout(start: State, before: seq<Step>, u: State) returns (steps: seq<Step>, s: State)
    requires Reaches(start, before, u) && AckLost !in before && |u.asked| == 1 && |u.replies| == 1
    requires u.tokens == 0 && u.event == 0 && u.listening && u.waiting && !u.attaching
    ensures Reaches(start, steps, s) && AckLost !in steps
    ensures s.tokens == 1 && s.event == 0 && s.listening && !s.waiting && !s.attaching
  {
    var s1 := Apply(u, GiveUp);
    Append(start, before, u, GiveUp, s1);
    s := Apply(s1, Deliver(0));
    Append(start, before + [GiveUp], s1, Deliver(0), s);
    steps := before + [GiveUp] + [Deliver(0)];
  }

  /** THEOREM. One query that times out is enough to stop the listener, with every read successful: an
    * attach takes the late reply's token for its answer and returns before the listener has read the event;
    * the next one adds its event to it, and two times REFRESH is SHUTDOWN. Then no reply is ever
    * delivered again. */
  lemma ListenerStops(table: Names, key: Key) returns (steps: seq<Step>, s: State)
    ensures Reaches(Start(table), steps, s) && AckLost !in steps && !s.listening
    ensures forall i: nat :: !Can(s, Deliver(i))
  {
    var before, u := LateReply(table, key);
    var more;
    more, s := StopByLeftOver(Start(table), before, u);
    steps := before + more;
  }

  /** THEOREM. When the listener gets the reply of the query that waits, the caller can take it at once
    * and returns what it says. */
  lemma DeliveredReplyReturns(table: Names, steps: seq<Step>, s: State, i: nat)
    requires Reaches(Start(table), steps, s) && s.waiting && Can(s, Deliver(i))
    requires s.asked != [] && s.replies[i].seqNum == Current(s)
    ensures var d := Apply(s, Deliver(i));
      && Can(d, Wake) && !Apply(d, Wake).waiting
      && Apply(d, Wake).log == s.log + [Entry(Current(s), match s.replies[i].outcome
                                                          case Found(v) => Success(v)
                                                          case Absent => NotFound)]
    ensures IsGiven(s, Current(s), s.replies[i].outcome)
  {
    EveryRunKeepsInv(table, steps, s);
  }

  /** The remote processor is asked at most once for query n, and for the key of that query. */
  lemma AskedOnce(table: Names, steps: seq<Step>, s: State, i: nat, j: nat)
    requires Reaches(Start(table), steps, s) && i < |s.requests| && j < |s.requests|
    ensures s.requests[i].seqNum < |s.asked| && s.requests[i].key == s.asked[s.requests[i].seqNum]
    ensures s.requests[i].seqNum !in s.given
    ensures s.requests[i].seqNum == s.requests[j].seqNum ==> i == j
  {
    EveryRunKeepsInv(table, steps, s);
  }
  // ---------------------------------------------------------------- what the histories record

  /** The keys asked for in a run, in order, the tables the remote processor had, and for each query how
    * many changes of the table came before it. */
  function KeysOf(steps: seq<Step>): seq<Key> {
    if steps == [] then []
    else
      var last := |steps| - 1;
      KeysOf(steps[..last]) + if steps[last].Begin? then [steps[last].key] else []
  }

  function TablesOf(table: Names, steps: seq<Step>): seq<Names> {
    if steps == [] then [table]
    else
      var last := |steps| - 1;
      TablesOf(table, steps[..last]) + if steps[last].Change? then [steps[last].table] else []
  }

  function IsChange(): Step -> bool {
    (a: Step) => a.Change?
  }

  function MomentsOf(steps: seq<Step>): seq<nat> {
    if steps == [] then []
    else
      var last := |steps| - 1;
      MomentsOf(steps[..last]) + if steps[last].Begin? then [Count(steps[..last], IsChange())] else []
  }

  /** THEOREM. The histories that the other theorems speak of are those of the run: the keys in the order
    * in which they were asked for, the tables in the order in which they replaced each other, and for
    * each query the table at the moment it was sent. */
  lemma {:induction false} HistoriesAreTheRun(table: Names, steps: seq<Step>, s: State)
    requires Reaches(Start(table), steps, s)
    ensures s.asked == KeysOf(steps) && s.tables == TablesOf(table, steps) && s.began == MomentsOf(steps)
    ensures |s.tables| == 1 + Count(steps, IsChange())
    decreases |steps|
  {
    if steps != [] {
      var last := |steps| - 1;
      var u :| Reaches(Start(table), steps[..last], u) && Can(u, steps[last]) && s == Apply(u, steps[last]);
      HistoriesAreTheRun(table, steps[..last], u);
      CountLast(steps, IsChange());
      HistoryStep(u, steps[last]);
    }
  }

  lemma HistoryStep(s: State, a: Step)
    requires Can(s, a) && s.tables != []
    ensures Apply(s, a).asked == s.asked + if a.Begin? then [a.key] else []
    ensures Apply(s, a).tables == s.tables + if a.Change? then [a.table] else []
    ensures Apply(s, a).began == s.began + if a.Begin? then [(|s.tables| - 1) as nat] else []
  {
  }
}
