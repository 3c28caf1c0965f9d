/** When the 16-bit job id counter comes round: how long an id that was issued stays out of reach, that
  * nothing can go wrong before the counter has been round once, and a run on which it does then. */
module RcmIdReuse {
  import opened RcmJobIds
  import opened RcmScheduler
  import opened RcmLedger
  import opened RcmSchedulerProof
  import opened RcmSchedulerTheorems

  // ---------------------------------------------------------------- what has been issued

  /** The counter is where its advances have brought it, and each id was issued when it showed it. */
  ghost predicate CounterInv(ids: Ids) {
    && ids.counter == IdAfter(LAST_ID, ids.advances)
    && forall id :: id in ids.issuedAt ==>
         1 <= ids.issuedAt[id] <= ids.advances && IdAfter(LAST_ID, ids.issuedAt[id]) == id
  }

  predicate InSystem(w: Place) {
    w.InReady? || w.InJob? || w.AtWorker?
  }

  /** The id of every job, and of every message that was accepted for one, has been issued. */
  ghost predicate IssuedInv(s: State) {
    && |s.place| == |s.received|
    && (forall j :: j in s.q.jobs ==> j in s.ids.issuedAt)
    && (forall u :: 0 <= u < |s.received| && InSystem(s.place[u]) && s.received[u].jobId != 0 ==>
         s.received[u].jobId in s.ids.issuedAt)
    && (forall i :: 0 <= i < |s.workers| && s.workers[i].pc.Finishing? ==> s.workers[i].pc.jobId in s.ids.issuedAt)
  }

  ghost predicate IdInv(s: State) {
    Inv(s) && CounterInv(s.ids) && IssuedInv(s)
  }

  lemma InitialIdInv(s: State)
    requires Initial(s)
    ensures IdInv(s)
  {
    InitialInv(s);
  }

  lemma CounterKept(ids: Ids, q: Queues, proc: Proc, out: Outcome)
    requires CounterInv(ids)
    requires proc.Run? && proc.p.kind.JobAcq? ==> AcquiredId(q, ids.counter, out.turns, out.newId)
    ensures CounterInv(IdsAfter(ids, proc, out)) && ids.issuedAt.Keys <= IdsAfter(ids, proc, out).issuedAt.Keys
    ensures IdsAfter(ids, proc, out).advances >= ids.advances
  {
    if proc.Run? && proc.p.kind.JobAcq? {
      IdAfterSum(LAST_ID, ids.advances, out.turns);
    }
  }

  /** Only a job request that is being completed touches the ids. */
  lemma IdsFrame(s: State, step: Step)
    requires Enabled(s, step)
    ensures Apply(s, step).ids ==
      if step.Process? && !Releases(s, step.t) && !HandsBack(s, step.t)
      then IdsAfter(s.ids, ProcOf(s, step.t), step.out) else s.ids
  {
  }

  lemma CounterStep(s: State, step: Step)
    requires CounterInv(s.ids) && Enabled(s, step)
    ensures var ids := Apply(s, step).ids;
      CounterInv(ids) && s.ids.issuedAt.Keys <= ids.issuedAt.Keys && ids.advances >= s.ids.advances
  {
    IdsFrame(s, step);
    if step.Process? {
      CounterKept(s.ids, s.q, ProcOf(s, step.t), step.out);
    }
  }

  /** The same ids or more, jobs that were there or have just been issued, and messages that were accepted
    * or are of such a job. */
  lemma IssuedBy(s: State, s': State)
    requires IssuedInv(s) && s.ids.issuedAt.Keys <= s'.ids.issuedAt.Keys
    requires |s'.place| == |s'.received| >= |s.received|
    requires forall j :: j in s'.q.jobs ==> j in s.q.jobs || j in s'.ids.issuedAt
    requires forall u :: 0 <= u < |s'.received| && InSystem(s'.place[u]) ==>
      || (u < |s.received| && s'.received[u] == s.received[u] && InSystem(s.place[u]))
      || s'.received[u].jobId == 0 || s'.received[u].jobId in s.q.jobs
    requires forall i :: 0 <= i < |s'.workers| && s'.workers[i].pc.Finishing? ==> s'.workers[i].pc.jobId in s'.ids.issuedAt
    ensures IssuedInv(s')
  {
  }

  lemma IssuedDispatch(s: State)
    requires IssuedInv(s) && CanDispatch(s) && ServerKnown(s)
    ensures IssuedInv(ApplyDispatch(s))
  {
    IssuedBy(s, ApplyDispatch(s));
  }

  lemma IssuedGet(s: State, i: nat)
    requires IssuedInv(s) && PlaceInv(s) && CanGet(s, i)
    ensures IssuedInv(ApplyGet(s, i))
  {
    var pool := s.workers[i].pool;
    if s.q.ready[pool] != [] {
      assert Known(s.received, s.place, Contents(s)(InReady(pool))[0], InReady(pool));
    }
    IssuedBy(s, ApplyGet(s, i));
  }

  lemma IssuedNextPassed(s: State, i: nat)
    requires IssuedInv(s) && CanTakeNext(s, i)
    requires var j := s.workers[i].pc.jobId;
      j in s.q.jobs && s.q.jobs[j].queue != [] && Known(s.received, s.place, s.q.jobs[j].queue[0], InJob(j))
    ensures IssuedInv(ApplyNextOfJob(s, i))
  {
    IssuedBy(s, ApplyNextOfJob(s, i));
  }

  lemma IssuedNextDrained(s: State, i: nat)
    requires IssuedInv(s) && CanTakeNext(s, i)
    requires var j := s.workers[i].pc.jobId; j !in s.q.jobs || s.q.jobs[j].queue == []
    ensures IssuedInv(ApplyNextOfJob(s, i))
  {
    IssuedBy(s, ApplyNextOfJob(s, i));
  }

  lemma IssuedNext(s: State, i: nat)
    requires IssuedInv(s) && PlaceInv(s) && CanTakeNext(s, i)
    ensures IssuedInv(ApplyNextOfJob(s, i))
  {
    var j := s.workers[i].pc.jobId;
    if j in s.q.jobs && s.q.jobs[j].queue != [] {
      QueueKnown(s, j);
      IssuedNextPassed(s, i);
    } else {
      IssuedNextDrained(s, i);
    }
  }

  lemma IssuedRelease(s: State, t: Thread)
    requires IssuedInv(s) && PlaceInv(s) && Processing(s, t) && Releases(s, t)
    ensures IssuedInv(ApplyRelease(s, t))
  {
    AllAtEffect(s.place, s.q.jobs[ProcOf(s, t).p.arg].queue, ComingBack(t));
    IssuedBy(s, ApplyRelease(s, t));
  }

  lemma IssuedHandBack(s: State, t: Thread)
    requires IssuedInv(s) && Processing(s, t) && HandsBack(s, t)
    ensures IssuedInv(ApplyHandBack(s, t))
  {
    IssuedBy(s, ApplyHandBack(s, t));
  }

  lemma IssuedComplete(s: State, t: Thread, out: Outcome)
    requires IssuedInv(s) && Processing(s, t)
    requires Known(s.received, s.place, ProcOf(s, t).p, HandOf(t))
    requires s.ids.issuedAt.Keys <= ApplyComplete(s, t, out).ids.issuedAt.Keys
    ensures IssuedInv(ApplyComplete(s, t, out))
  {
    IssuedBy(s, ApplyComplete(s, t, out));
  }

  lemma IssuedProcess(s: State, t: Thread, out: Outcome)
    requires IssuedInv(s) && PlaceInv(s) && CounterInv(s.ids) && CanProcess(s, t, out)
    ensures IssuedInv(ApplyProcess(s, t, out))
  {
    if Releases(s, t) {
      IssuedRelease(s, t);
    } else if HandsBack(s, t) {
      IssuedHandBack(s, t);
    } else {
      HandKnown(s, t);
      CounterKept(s.ids, s.q, ProcOf(s, t), out);
      IssuedComplete(s, t, out);
    }
  }

  lemma IssuedStep(s: State, step: Step)
    requires IdInv(s) && Enabled(s, step)
    ensures IssuedInv(Apply(s, step))
  {
    match step
    case Receive(p) => IssuedBy(s, ApplyReceive(s, p));
    case ServerDispatch =>
      ServerIsKnown(s);
      IssuedDispatch(s);
    case ServerPost => IssuedBy(s, ApplyServerPost(s));
    case Pend(i) => IssuedBy(s, ApplyPend(s, i));
    case Get(i) => IssuedGet(s, i);
    case Process(t, out) => IssuedProcess(s, t, out);
    case NextOfJob(i) => IssuedNext(s, i);
    case WorkerPost(i) => IssuedBy(s, ApplyWorkerPost(s, i));
  }

  lemma CarriedWasIssued(s: State, j: nat, c: Carrier)
    requires IssuedInv(s) && j != 0 && Carries(s, j, c)
    ensures j in s.ids.issuedAt
  {
  }

  // ---------------------------------------------------------------- promptness

  /** When a step has been taken, the counter has not been advanced 65535 times since the id of any
    * outstanding message was issued. */
  ghost predicate Prompt(s: State, step: Step)
    requires Enabled(s, step)
  {
    forall j, c :: j != 0 && Carries(s, j, c) && j in s.ids.issuedAt ==>
      Apply(s, step).ids.advances - s.ids.issuedAt[j] < LAST_ID
  }

  /** THEOREM. An id comes out of the search again only when the counter has been advanced 65535 times
    * since it was issued; so a step before which every message has been prompt re-issues nothing. */
  lemma PromptIsClean(s: State, step: Step)
    requires IdInv(s) && Enabled(s, step) && Prompt(s, step)
    ensures Clean(s, step)
  {
    if step.Process? {
      var id, n := step.out.newId, step.out.turns;
      if c :| !CleanAcquire(s, step.t, step.out) && Carries(s, id, c) {
        CarriedWasIssued(s, id, c);
        IdsFrame(s, step);
        IdAfterSum(LAST_ID, s.ids.advances, n);
        RepeatTakesACycle(s.ids.issuedAt[id], s.ids.advances + n);
      }
    }
  }

  lemma IdStep(s: State, step: Step)
    requires IdInv(s) && Enabled(s, step) && Clean(s, step)
    ensures IdInv(Apply(s, step)) && Apply(s, step).ids.advances >= s.ids.advances
  {
    StepKeepsInv(s, step);
    CounterStep(s, step);
    IssuedStep(s, step);
  }

  ghost predicate PromptRun(s: State, run: seq<Step>)
    requires Possible(s, run)
    decreases run
  {
    run == [] || (Prompt(s, run[0]) && PromptRun(Apply(s, run[0]), run[1..]))
  }

  lemma {:induction false} PromptRunOn(s: State, run: seq<Step>)
    requires IdInv(s) && Possible(s, run) && PromptRun(s, run)
    ensures CleanRun(s, run)
    decreases run
  {
    if run != [] {
      PromptIsClean(s, run[0]);
      IdStep(s, run[0]);
      PromptRunOn(Apply(s, run[0]), run[1..]);
    }
  }

  /** THEOREM. When every message leaves the ready queues and the workers before its job's id can come
    * round, then all that holds in reachable states holds. */
  lemma PromptRunsAreClean(s: State, run: seq<Step>)
    requires Initial(s) && Possible(s, run) && PromptRun(s, run)
    ensures CleanRun(s, run) && Reachable(After(s, run))
  {
    InitialIdInv(s);
    PromptRunOn(s, run);
  }

  lemma FirstCyclePrompt(s: State, step: Step)
    requires IdInv(s) && Enabled(s, step) && Apply(s, step).ids.advances <= LAST_ID
    ensures Prompt(s, step)
  {
  }

  lemma {:induction false} FirstCycleOn(s: State, run: seq<Step>)
    requires IdInv(s) && Possible(s, run) && After(s, run).ids.advances <= LAST_ID
    ensures CleanRun(s, run) && s.ids.advances <= After(s, run).ids.advances
    decreases run
  {
    if run != [] {
      AdvancesGrow(s, run);
      FirstCyclePrompt(s, run[0]);
      PromptIsClean(s, run[0]);
      IdStep(s, run[0]);
      FirstCycleOn(Apply(s, run[0]), run[1..]);
    }
  }

  lemma {:induction false} AdvancesGrow(s: State, run: seq<Step>)
    requires Possible(s, run) && run != []
    ensures s.ids.advances <= Apply(s, run[0]).ids.advances <= After(s, run).ids.advances
    decreases run
  {
    IdsFrame(s, run[0]);
    if |run| > 1 {
      AdvancesGrow(Apply(s, run[0]), run[1..]);
    }
  }

  /** THEOREM. Until the counter has been advanced more than 65535 times every run is clean, whatever the
    * clients do and however late the messages are. */
  lemma FirstCycleClean(s: State, run: seq<Step>)
    requires Initial(s) && Possible(s, run) && After(s, run).ids.advances <= LAST_ID
    ensures CleanRun(s, run) && Reachable(After(s, run))
  {
    InitialIdInv(s);
    FirstCycleOn(s, run);
  }

  // ---------------------------------------------------------------- a run on which it goes wrong

  /** One step in front of both. */
  lemma JoinOne(s: State, first: seq<Step>, second: seq<Step>, s1: State, tail: seq<Step>)
    requires first != [] && Enabled(s, first[0]) && s1 == Apply(s, first[0]) && tail == first[1..]
    requires Possible(s1, tail + second)
    ensures Possible(s, first + second) && After(s, first + second) == After(s1, tail + second)
  {
    assert (first + second)[1..] == tail + second;
  }

  lemma {:induction false} Join(s: State, first: seq<Step>, second: seq<Step>)
    requires Possible(s, first) && Possible(After(s, first), second)
    ensures Possible(s, first + second) && After(s, first + second) == After(After(s, first), second)
    decreases first
  {
    if first == [] {
      assert first + second == second;
    } else {
      var s1, tail := Apply(s, first[0]), first[1..];
      Join(s1, tail, second);
      JoinOne(s, first, second, s1, tail);
    }
  }

  lemma Single(s: State, a: Step)
    requires Enabled(s, a)
    ensures Possible(s, [a]) && After(s, [a]) == Apply(s, a)
  {
    assert [a][1..] == [];
    assert After(Apply(s, a), []) == Apply(s, a);
  }

  lemma Two(s: State, a: Step, b: Step)
    requires Enabled(s, a) && Enabled(Apply(s, a), b)
    ensures Possible(s, [a, b]) && After(s, [a, b]) == Apply(Apply(s, a), b)
  {
    Single(Apply(s, a), b);
    assert [a, b][1..] == [b];
  }

  lemma Three(s: State, a: Step, b: Step, c: Step)
    requires Enabled(s, a) && Enabled(Apply(s, a), b) && Enabled(Apply(Apply(s, a), b), c)
    ensures Possible(s, [a, b, c]) && After(s, [a, b, c]) == Apply(Apply(Apply(s, a), b), c)
  {
    Two(Apply(s, a), b, c);
    assert [a, b, c][1..] == [b, c];
  }

  /** The default pool has no worker, the other pool has one. */
  function Fresh(): State {
    State(Queues(map[], [[], []], [0, 0]), Ids(LAST_ID, 0, map[]), Waiting, [Worker(1, Idle)], Free, [], [], [])
  }

  /** The message that stays on the ready queue. */
  const LATE: Packet := Packet(1, RcmMsg, 1, 0x8001, 0)

  predicate AtRest(s: State) {
    s.server.Waiting? && s.gate.Free? && s.workers == [Worker(1, Idle)] && |s.q.ready| == |s.q.sem| == 2
  }

  function Request(s: State, kind: Kind, arg: nat): Packet {
    Packet(|s.received|, kind, 0, DEFAULT_POOL_ID, arg)
  }

  /** A request that arrives for the default pool is taken in-band. */
  lemma InBandRequest(s: State, kind: Kind, arg: nat)
    requires AtRest(s)
    ensures var p := Request(s, kind, arg);
      && Enabled(s, Receive(p)) && Enabled(Apply(s, Receive(p)), ServerDispatch)
      && Apply(Apply(s, Receive(p)), ServerDispatch) ==
           s.(server := InBand(Run(p)), received := s.received + [p], place := s.place + [AtServer])
  {
  }

  /** The job ids in use while the counter goes round: all that were issued but the first. */
  ghost predicate Wrapping(s: State, k: nat) {
    && AtRest(s) && s.q.ready[1] == [LATE] && s.ids.counter == k == s.ids.advances
    && forall j: nat :: j in s.q.jobs <==> 2 <= j <= k
  }

  lemma IssueNext(s: State, p: Packet, k: nat, id: nat)
    requires AtRest(s.(server := Waiting)) && s.server == InBand(Run(p)) && p.kind.JobAcq? && p.jobId == 0
    requires s.ids.counter == k <= LAST_ID && id == NextId(k) && id !in s.q.jobs
    ensures Enabled(s, Process(Server, Outcome(true, 0, 1, id)))
    ensures var t := Apply(s, Process(Server, Outcome(true, 0, 1, id)));
      && AtRest(t) && t.q == Acquire(s.q, id) && t.ids.counter == id && t.ids.advances == s.ids.advances + 1
      && t.received == s.received
  {
    assert IdAfter(k, 0) == k && IdAfter(k, 1) == id;
  }

  /** One more job is acquired. */
  lemma WrapStep(s: State, k: nat) returns (run: seq<Step>)
    requires Wrapping(s, k) && 1 <= k < LAST_ID
    ensures Possible(s, run) && Wrapping(After(s, run), k + 1)
  {
    var p := Request(s, JobAcq, 0);
    InBandRequest(s, JobAcq, 0);
    var u := Apply(Apply(s, Receive(p)), ServerDispatch);
    IssueNext(u, p, k, k + 1);
    Three(s, Receive(p), ServerDispatch, Process(Server, Outcome(true, 0, 1, k + 1)));
    run := [Receive(p), ServerDispatch, Process(Server, Outcome(true, 0, 1, k + 1))];
  }

  lemma {:induction false} WrapRun(s: State, k: nat) returns (run: seq<Step>)
    requires Wrapping(s, k) && 1 <= k <= LAST_ID
    ensures Possible(s, run) && Wrapping(After(s, run), LAST_ID)
    decreases LAST_ID - k
  {
    if k == LAST_ID {
      run := [];
    } else {
      var first := WrapStep(s, k);
      var rest := WrapRun(After(s, first), k + 1);
      Join(s, first, rest);
      run := first + rest;
    }
  }

  /** Job 1 is acquired. */
  lemma AcquireFirst() returns (run: seq<Step>)
    ensures Possible(Fresh(), run)
    ensures var t := After(Fresh(), run);
      && AtRest(t) && t.q == Queues(map[1 := Job(true, [])], [[], []], [0, 0])
      && t.ids.counter == 1 == t.ids.advances && |t.received| == 1
  {
    var s := Fresh();
    var p := Request(s, JobAcq, 0);
    InBandRequest(s, JobAcq, 0);
    IssueNext(Apply(Apply(s, Receive(p)), ServerDispatch), p, LAST_ID, 1);
    Three(s, Receive(p), ServerDispatch, Process(Server, Outcome(true, 0, 1, 1)));
    run := [Receive(p), ServerDispatch, Process(Server, Outcome(true, 0, 1, 1))];
  }

  /** A message of job 1 goes to the ready queue of pool 1. */
  lemma QueueLate(s: State) returns (run: seq<Step>)
    requires AtRest(s) && s.q == Queues(map[1 := Job(true, [])], [[], []], [0, 0]) && |s.received| == 1
    ensures Possible(s, run)
    ensures var t := After(s, run);
      && AtRest(t) && t.q == Queues(map[1 := Job(false, [])], [[], [LATE]], [0, 1]) && t.ids == s.ids
  {
    run := [Receive(LATE), ServerDispatch, ServerPost];
    var a := Apply(s, Receive(LATE));
    assert !InBandOnly(a, LATE);
    var jobs := map[1 := Job(true, [])];
    var ready: seq<seq<Packet>> := [[], []];
    assert jobs[1 := Job(false, [])] == map[1 := Job(false, [])];
    assert ready[1] + [LATE] == [LATE];
    assert ready[1 := [LATE]] == [[], [LATE]];
    assert Dispatch(a.q, LATE) == (Queues(map[1 := Job(false, [])], [[], [LATE]], [0, 0]), OnReady(1));
    Three(s, Receive(LATE), ServerDispatch, ServerPost);
  }

  /** Job 1 is released. */
  lemma ReleaseFirst(s: State) returns (run: seq<Step>)
    requires AtRest(s) && s.q == Queues(map[1 := Job(false, [])], [[], [LATE]], [0, 1])
    requires s.ids.counter == 1 == s.ids.advances
    ensures Possible(s, run) && Wrapping(After(s, run), 1)
  {
    var p := Request(s, JobRel, 1);
    InBandRequest(s, JobRel, 1);
    var go := Process(Server, Outcome(true, 0, 0, 0));
    var b := Apply(Apply(s, Receive(p)), ServerDispatch);
    var c := Released(b, p);
    Three(s, Receive(p), ServerDispatch, go);
    Single(c, go);
    Join(s, [Receive(p), ServerDispatch, go], [go]);
    run := [Receive(p), ServerDispatch, go] + [go];
  }

  lemma Released(b: State, p: Packet) returns (c: State)
    requires AtRest(b.(server := Waiting)) && b.server == InBand(Run(p)) && p.kind.JobRel? && p.arg == 1 && p.jobId == 0
    requires b.q == Queues(map[1 := Job(false, [])], [[], [LATE]], [0, 1])
    requires b.ids.counter == 1 == b.ids.advances
    ensures var go := Process(Server, Outcome(true, 0, 0, 0));
      && Enabled(b, go) && c == Apply(b, go) && Enabled(c, go) && Wrapping(Apply(c, go), 1)
  {
    c := b.(q := Queues(map[], [[], [LATE]], [0, 1]), server := InBand(Returning(p, [])));
    assert b.q.jobs - {1} == map[];
  }

  /** Acquired, used, released, and then the counter comes round. */
  lemma RunToWrap() returns (run: seq<Step>)
    ensures Possible(Fresh(), run) && Wrapping(After(Fresh(), run), LAST_ID)
  {
    var s := Fresh();
    var first := AcquireFirst();
    var second := QueueLate(After(s, first));
    Join(s, first, second);
    var third := ReleaseFirst(After(s, first + second));
    Join(s, first + second, third);
    var rest := WrapRun(After(s, first + second + third), 1);
    Join(s, first + second + third, rest);
    run := first + second + third + rest;
  }

  /** THEOREM. A run from a fresh server to a reachable state in which the next step breaks one-per-job:
    * a job is acquired, a message of it queued, the job released and, the message still waiting for its
    * worker, ids are requested until the counter shows the first one again. The new job says that it
    * has no message outstanding, and has one. By FirstCycleClean no shorter cycle does. */
  lemma ReissueBreaksOnePerJob() returns (s0: State, run: seq<Step>, step: Step)
    ensures Initial(s0) && Possible(s0, run) && Reachable(After(s0, run)) && Enabled(After(s0, run), step)
    ensures After(s0, run).ids.advances == LAST_ID
    ensures var s' := Apply(After(s0, run), step);
      1 in s'.q.jobs && s'.q.jobs[1].empty && Outstanding(s', 1, LATE) && !JobInv(s')
  {
    s0 := Fresh();
    var most := RunToWrap();
    var s := After(s0, most);
    var p := Request(s, JobAcq, 0);
    InBandRequest(s, JobAcq, 0);
    Two(s, Receive(p), ServerDispatch);
    Join(s0, most, [Receive(p), ServerDispatch]);
    run := most + [Receive(p), ServerDispatch];
    FirstCycleClean(s0, run);
    step := Process(Server, Outcome(true, 0, 1, 1));
    IssueNext(After(s0, run), p, LAST_ID, 1);
    LateIsOutstanding(After(s0, run), Apply(After(s0, run), step));
  }

  lemma LateIsOutstanding(s: State, s': State)
    requires Reachable(s) && |s.q.ready| == 2 && s.q.ready[1] == [LATE]
    requires s'.q.ready == s.q.ready && s'.received == s.received && s'.workers == s.workers
    requires 1 in s'.q.jobs && s'.q.jobs[1].empty
    requires Enabled(s, Process(Server, Outcome(true, 0, 1, 1))) && s' == Apply(s, Process(Server, Outcome(true, 0, 1, 1)))
    ensures Outstanding(s', 1, LATE) && !JobInv(s')
  {
    assert LATE in s'.q.ready[1];
    ReachableInv(s);
    PlaceKept(s, Process(Server, Outcome(true, 0, 1, 1)));
    OutstandingCarries(s', 1, LATE);
  }
}
