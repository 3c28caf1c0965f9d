/** Shutting down one worker pool: the server thread has been joined and no job is live, so pools do
  * not affect each other. The finalizing thread marks every worker for termination, posts the
  * pool's semaphore once per worker, joins each worker, and gives back what is left on the ready
  * queue, while the workers go on running in any interleaving. */
module RcmFinalize {
  import opened Counting
  import S = RcmScheduler
  import P = RcmSchedulerProof
  import T = RcmSchedulerTheorems

  datatype Pc =
    | Idle      // before the semaphore pend
    | Awake     // past the pend, terminate flag not yet read
    | Taking    // read the flag as FALSE, about to take from the ready queue
    | Working   // has a message
    | Gone      // left its loop

  datatype Worker = Worker(pc: Pc, terminate: bool)

  datatype Phase = Marking(done: nat) | Posting(done: nat) | Joining(done: nat) | Draining | Finished

  /** started and returned are histories of messages taken by workers and given back. */
  datatype State = State(ready: seq<S.Packet>, sem: nat, workers: seq<Worker>, phase: Phase,
                         started: seq<S.Packet>, returned: seq<S.Packet>)

  datatype Step = Pend(i: nat) | ReadFlag(i: nat) | Take(i: nat) | Work(i: nat) | Main

  predicate Enabled(s: State, step: Step) {
    match step
    case Pend(i) => i < |s.workers| && s.workers[i].pc.Idle? && s.sem > 0
    case ReadFlag(i) => i < |s.workers| && s.workers[i].pc.Awake?
    case Take(i) => i < |s.workers| && s.workers[i].pc.Taking?
    case Work(i) => i < |s.workers| && s.workers[i].pc.Working?
    case Main =>
      && !s.phase.Finished?
      && (s.phase.Joining? && s.phase.done < |s.workers| ==> s.workers[s.phase.done].pc.Gone?)
  }

  function WithPc(s: State, i: nat, pc: Pc): State
    requires i < |s.workers|
  {
    s.(workers := s.workers[i := s.workers[i].(pc := pc)])
  }

  function ApplyMain(s: State): State {
    match s.phase
    case Marking(k) =>
      if k < |s.workers| then
        s.(workers := s.workers[k := s.workers[k].(terminate := true)], phase := Marking(k + 1))
      else s.(phase := Posting(0))
    case Posting(k) =>
      if k < |s.workers| then s.(sem := s.sem + 1, phase := Posting(k + 1)) else s.(phase := Joining(0))
    case Joining(k) => if k < |s.workers| then s.(phase := Joining(k + 1)) else s.(phase := Draining)
    case Draining =>
      if s.ready == [] then s.(phase := Finished)
      else s.(returned := s.returned + [s.ready[0]], ready := s.ready[1..])
    case Finished => s
  }

  function Apply(s: State, step: Step): State
    requires Enabled(s, step)
  {
    match step
    case Pend(i) => WithPc(s.(sem := s.sem - 1), i, Awake)
    case ReadFlag(i) => WithPc(s, i, if s.workers[i].terminate then Gone else Taking)
    case Take(i) =>
      if s.ready == [] then WithPc(s, i, Idle)
      else WithPc(s.(started := s.started + [s.ready[0]], ready := s.ready[1..]), i, Working)
    case Work(i) => WithPc(s, i, Idle)
    case Main => ApplyMain(s)
  }

  // ---------------------------------------------------------------- invariant

  function InAwake(): Worker -> bool {
    (w: Worker) => w.pc.Awake?
  }

  function InTaking(): Worker -> bool {
    (w: Worker) => w.pc.Taking?
  }

  /** Will pend on the semaphore once more before it can leave. */
  function NeedsCount(): Worker -> bool {
    (w: Worker) => w.pc.Idle? || w.pc.Taking? || w.pc.Working?
  }

  predicate AllGone(s: State, n: nat) {
    forall i :: 0 <= i < |s.workers| && i < n ==> s.workers[i].pc.Gone?
  }

  predicate Marked(s: State, n: nat) {
    forall i :: 0 <= i < |s.workers| && i < n ==> s.workers[i].terminate
  }

  /** The state in which the finalizing thread finds the pool. */
  predicate Start(s: State) {
    && s.phase == Marking(0) && s.started == [] && s.returned == []
    && (forall i :: 0 <= i < |s.workers| ==>
          !s.workers[i].terminate && !s.workers[i].pc.Gone? && !s.workers[i].pc.Taking?)
    && |s.ready| == s.sem + Count(s.workers, InAwake())
  }

  predicate PhaseInv(s: State) {
    match s.phase
    case Marking(k) =>
      && k <= |s.workers| && Marked(s, k) && s.returned == []
      && |s.ready| >= s.sem + Count(s.workers, InAwake()) + Count(s.workers, InTaking())
    case Posting(k) =>
      && k <= |s.workers| && Marked(s, |s.workers|) && s.returned == []
      && s.sem + |s.workers| >= k + Count(s.workers, NeedsCount())
    case Joining(k) =>
      && k <= |s.workers| && Marked(s, |s.workers|) && s.returned == []
      && AllGone(s, k) && s.sem >= Count(s.workers, NeedsCount())
    case Draining => AllGone(s, |s.workers|)
    case Finished => AllGone(s, |s.workers|) && s.ready == []
  }

  predicate Inv(s: State, ready0: seq<S.Packet>) {
    && s.started + s.returned + s.ready == ready0
    && |s.ready| >= Count(s.workers, InTaking())
    && PhaseInv(s)
  }

  lemma StartInv(s: State)
    requires Start(s)
    ensures Inv(s, s.ready)
  {
    CountNone(s.workers, InTaking());
  }

  lemma Recount(ws: seq<Worker>, i: nat, w: Worker)
    requires i < |ws|
    ensures Count(ws[i := w], InAwake()) + One(ws[i].pc.Awake?) == Count(ws, InAwake()) + One(w.pc.Awake?)
    ensures Count(ws[i := w], InTaking()) + One(ws[i].pc.Taking?) == Count(ws, InTaking()) + One(w.pc.Taking?)
    ensures Count(ws[i := w], NeedsCount()) + One(NeedsCount()(ws[i])) == Count(ws, NeedsCount()) + One(NeedsCount()(w))
  {
    CountUpdate(ws, i, w, InAwake());
    CountUpdate(ws, i, w, InTaking());
    CountUpdate(ws, i, w, NeedsCount());
  }

  /** A worker that read its flag as FALSE finds a message. */
  lemma TakingFinds(s: State, ready0: seq<S.Packet>, i: nat)
    requires Inv(s, ready0) && Enabled(s, Take(i))
    ensures s.ready != []
  {
    CountHit(s.workers, i, InTaking());
  }

  lemma MainKeepsInv(s: State, ready0: seq<S.Packet>)
    requires Inv(s, ready0) && Enabled(s, Main)
    ensures Inv(Apply(s, Main), ready0)
  {
    match s.phase
    case Marking(k) =>
      if k < |s.workers| {
        Recount(s.workers, k, s.workers[k].(terminate := true));
      } else {
        CountAtMost(s.workers, NeedsCount());
      }
    case Draining =>
      CountNone(s.workers, InTaking());
      if s.ready != [] {
        assert s.started + s.returned + s.ready == s.started + (s.returned + [s.ready[0]]) + s.ready[1..];
      }
    case _ =>
  }

  lemma WorkerKeepsInv(s: State, ready0: seq<S.Packet>, step: Step)
    requires Inv(s, ready0) && Enabled(s, step) && !step.Main?
    ensures Inv(Apply(s, step), ready0)
  {
    var i := step.i;
    Recount(s.workers, i, Apply(s, step).workers[i]);
    if step.Take? {
      TakingFinds(s, ready0, i);
      if s.returned == [] {
        assert s.started + s.returned + s.ready == (s.started + [s.ready[0]]) + s.returned + s.ready[1..];
      }
    }
  }

  // ---------------------------------------------------------------- progress

  function Rank(pc: Pc): nat {
    match pc
    case Gone => 0
    case Taking => 1
    case Awake => 2
    case Idle => 3
    case Working => 4
  }

  function Ranks(ws: seq<Worker>): nat {
    if ws == [] then 0 else Rank(ws[0].pc) + Ranks(ws[1..])
  }

  lemma {:induction false} RanksUpdate(ws: seq<Worker>, i: nat, w: Worker)
    requires i < |ws|
    ensures Ranks(ws[i := w]) + Rank(ws[i].pc) == Ranks(ws) + Rank(w.pc)
  {
    if i == 0 {
      assert ws[i := w][1..] == ws[1..];
    } else {
      assert ws[i := w][1..] == ws[1..][i - 1 := w];
      RanksUpdate(ws[1..], i - 1, w);
    }
  }

  /** Main steps left, not counting those that drain the ready queue. */
  function MainLeft(s: State): int {
    var n := |s.workers|;
    match s.phase
    case Marking(k) => 3 * n - k + 4
    case Posting(k) => 2 * n - k + 3
    case Joining(k) => n - k + 2
    case Draining => 1
    case Finished => 0
  }

  function Measure(s: State): int {
    8 * |s.ready| + Ranks(s.workers) + MainLeft(s)
  }

  lemma MeasureNotNegative(s: State, ready0: seq<S.Packet>)
    requires Inv(s, ready0)
    ensures 0 <= Measure(s)
  {
  }

  lemma MainProgresses(s: State)
    requires PhaseInv(s) && Enabled(s, Main)
    ensures Measure(Apply(s, Main)) < Measure(s)
  {
    if s.phase.Marking? && s.phase.done < |s.workers| {
      RanksUpdate(s.workers, s.phase.done, s.workers[s.phase.done].(terminate := true));
    }
  }

  lemma WorkerProgresses(s: State, step: Step)
    requires Enabled(s, step) && !step.Main? && (step.Take? ==> s.ready != [])
    ensures Measure(Apply(s, step)) < Measure(s)
  {
    RanksUpdate(s.workers, step.i, Apply(s, step).workers[step.i]);
  }

  /** THEOREM. Every step of a shutdown brings it closer to its end. */
  lemma EveryStepProgresses(s: State, ready0: seq<S.Packet>, step: Step)
    requires Inv(s, ready0) && Enabled(s, step)
    ensures 0 <= Measure(Apply(s, step)) < Measure(s)
  {
    if step.Main? {
      MainKeepsInv(s, ready0);
      MainProgresses(s);
    } else {
      WorkerKeepsInv(s, ready0, step);
      if step.Take? {
        TakingFinds(s, ready0, step.i);
      }
      WorkerProgresses(s, step);
    }
    MeasureNotNegative(Apply(s, step), ready0);
  }

  /** THEOREM. A shutdown never blocks: until it is finished some thread can move. */
  lemma NeverStuck(s: State, ready0: seq<S.Packet>) returns (step: Step)
    requires Inv(s, ready0) && !s.phase.Finished?
    ensures Enabled(s, step)
  {
    step := Main;
    if s.phase.Joining? && s.phase.done < |s.workers| {
      var i := s.phase.done;
      match s.workers[i].pc
      case Gone =>
      case Idle =>
        CountHit(s.workers, i, NeedsCount());
        step := Pend(i);
      case Awake => step := ReadFlag(i);
      case Taking => step := Take(i);
      case Working => step := Work(i);
    }
  }

  predicate Possible(s: State, run: seq<Step>)
    decreases run
  {
    run == [] || (Enabled(s, run[0]) && Possible(Apply(s, run[0]), run[1..]))
  }

  function After(s: State, run: seq<Step>): State
    requires Possible(s, run)
    decreases run
  {
    if run == [] then s else After(Apply(s, run[0]), run[1..])
  }

  lemma {:induction false} RunKeepsInv(s: State, ready0: seq<S.Packet>, run: seq<Step>)
    requires Inv(s, ready0) && Possible(s, run)
    ensures Inv(After(s, run), ready0) && |run| + Measure(After(s, run)) <= Measure(s) && 0 <= Measure(After(s, run))
    decreases run
  {
    if run != [] {
      if run[0].Main? { MainKeepsInv(s, ready0); } else { WorkerKeepsInv(s, ready0, run[0]); }
      EveryStepProgresses(s, ready0, run[0]);
      RunKeepsInv(Apply(s, run[0]), ready0, run[1..]);
    }
  }

  /** THEOREM. Whatever the interleaving, a shutdown takes at most Measure(s) steps, cannot stop
    * early, and ends with every worker gone and every message of the ready queue either started by
    * a worker or given back unprocessed: a prefix, in order, was started and exactly the rest
    * was given back. */
  lemma ShutdownCompletes(s: State, run: seq<Step>)
    requires Start(s) && Possible(s, run)
    ensures |run| <= Measure(s)
    ensures var e := After(s, run);
      if e.phase.Finished? then AllGone(e, |e.workers|) && e.started + e.returned == s.ready
      else exists step :: Enabled(e, step)
  {
    StartInv(s);
    RunKeepsInv(s, s.ready, run);
    var e := After(s, run);
    if !e.phase.Finished? {
      var step := NeverStuck(e, s.ready);
    } else {
      assert e.started + e.returned + [] == e.started + e.returned;
    }
  }

  function IsPend(): Step -> bool {
    (step: Step) => step.Pend?
  }

  /** How often the finalizing thread has posted the semaphore. */
  function Posted(s: State): nat {
    match s.phase
    case Marking(_) => 0
    case Posting(k) => k
    case _ => |s.workers|
  }

  lemma TokenStep(s: State, ready0: seq<S.Packet>, step: Step)
    requires Inv(s, ready0) && Enabled(s, step)
    ensures var s' := Apply(s, step);
      s'.sem + One(step.Pend?) - Posted(s') == s.sem - Posted(s) && |s'.workers| == |s.workers|
  {
  }

  /** THEOREM. The finalizing thread posts the semaphore once for each worker and nothing else does: from
    * its posts on, what is left of the semaphore is what it was, and one for each worker, less what the
    * workers have taken. */
  lemma {:induction false} OnePostPerWorker(s: State, ready0: seq<S.Packet>, run: seq<Step>)
    requires Inv(s, ready0) && Possible(s, run)
    ensures var e := After(s, run);
      e.sem + Count(run, IsPend()) - Posted(e) == s.sem - Posted(s) && |e.workers| == |s.workers|
    decreases run
  {
    if run != [] {
      if run[0].Main? { MainKeepsInv(s, ready0); } else { WorkerKeepsInv(s, ready0, run[0]); }
      TokenStep(s, ready0, run[0]);
      OnePostPerWorker(Apply(s, run[0]), ready0, run[1..]);
    }
  }

  // ---------------------------------------------------------------- from the scheduler

  function PcOf(pc: S.WorkerPc): Pc {
    match pc
    case Idle => Idle
    case Awake => Awake
    case _ => Working
  }

  function MembersOf(ws: seq<S.Worker>, pool: nat): seq<Worker> {
    if ws == [] then []
    else if ws[0].pool == pool then [Worker(PcOf(ws[0].pc), false)] + MembersOf(ws[1..], pool)
    else MembersOf(ws[1..], pool)
  }

  /** One pool of a scheduler state, as the finalizing thread finds it. */
  function PoolOf(s: S.State, pool: nat): State
    requires pool < |s.q.ready| == |s.q.sem|
  {
    State(s.q.ready[pool], s.q.sem[pool], MembersOf(s.workers, pool), Marking(0), [], [])
  }

  lemma {:induction false} MembersCount(ws: seq<S.Worker>, pool: nat)
    requires forall i :: 0 <= i < |ws| ==> !ws[i].pc.Passing?
    ensures Count(MembersOf(ws, pool), InAwake()) == Count(ws, P.Owes(pool))
    ensures forall i :: 0 <= i < |MembersOf(ws, pool)| ==>
      !MembersOf(ws, pool)[i].terminate && !MembersOf(ws, pool)[i].pc.Gone? && !MembersOf(ws, pool)[i].pc.Taking?
  {
    if ws != [] {
      MembersCount(ws[1..], pool);
      if ws[0].pool == pool {
        assert MembersOf(ws, pool)[1..] == MembersOf(ws[1..], pool);
      }
    }
  }

  /** THEOREM. In every reachable scheduler state in which the server thread is not sending and the
    * gate is free, each pool is a state from which a shutdown may start. */
  lemma SchedulerReadyToStop(s: S.State, pool: nat)
    requires T.Reachable(s) && s.server.Waiting? && s.gate.Free? && pool < |s.q.ready|
    ensures |s.q.ready| == |s.q.sem| && Start(PoolOf(s, pool))
  {
    T.ReachableInv(s);
    MembersCount(s.workers, pool);
  }
}
