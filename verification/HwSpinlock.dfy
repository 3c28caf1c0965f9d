/** Gates shared by several processors: each process that uses them has one recursive local gate and, for
  * every hardware gate, a nesting count; all share one test-and-set register for each gate. Several
  * processes may run on one processor. */
module HwSpinlock {
  import opened Counting

  /** Between the steps of enter and leave: about to test the register; between leaving and entering
    * the local gate again; register given up, local gate not yet. */
  datatype Pc = Running | Trying(g: nat) | BackingOff(g: nat) | Leaving(g: nat)

  /** History: depth[g] is how often the thread has entered gate g and not left it. */
  datatype Thread = Thread(proc: nat, pc: Pc, depth: seq<nat>)

  /** A process: its local gate with owner and count, and the nesting count of each of its gate objects. */
  datatype Process = Process(owner: Option<nat>, count: nat, nested: seq<nat>)

  /** A register is free or taken; who took it is history. */
  datatype State = State(regs: seq<Option<nat>>, procs: seq<Process>, threads: seq<Thread>)

  datatype Step =
    | Enter(t: nat, g: nat) | Try(t: nat) | Reenter(t: nat) | Leave(t: nat, g: nat) | LeaveLocal(t: nat)

  predicate Shape(s: State) {
    && (forall t :: 0 <= t < |s.threads| ==> s.threads[t].proc < |s.procs| && |s.threads[t].depth| == |s.regs|)
    && (forall p :: 0 <= p < |s.procs| ==> |s.procs[p].nested| == |s.regs|)
  }

  predicate IsThread(s: State, t: nat) {
    Shape(s) && t < |s.threads|
  }

  /** The gate the thread is at. */
  predicate AtGate(s: State, t: nat) {
    IsThread(s, t) && !s.threads[t].pc.Running? && s.threads[t].pc.g < |s.regs|
  }

  function ProcOf(s: State, t: nat): Process
    requires IsThread(s, t)
  {
    s.procs[s.threads[t].proc]
  }

  /** The local gate is free or already owned by the thread. */
  predicate LocalOpen(s: State, t: nat)
    requires IsThread(s, t)
  {
    ProcOf(s, t).owner == None || ProcOf(s, t).owner == Some(t)
  }

  function SetProc(s: State, t: nat, p: Process): State
    requires IsThread(s, t)
  {
    s.(procs := s.procs[s.threads[t].proc := p])
  }

  function SetThread(s: State, t: nat, th: Thread): State
    requires IsThread(s, t)
  {
    s.(threads := s.threads[t := th])
  }

  function LocalEnter(p: Process, t: nat): Process {
    p.(owner := Some(t), count := p.count + 1)
  }

  function LocalLeave(p: Process): Process {
    if p.count <= 1 then p.(owner := None, count := 0) else p.(count := p.count - 1)
  }

  function Nest(p: Process, g: nat): Process
    requires g < |p.nested|
  {
    p.(nested := p.nested[g := p.nested[g] + 1])
  }

  function Unnest(p: Process, g: nat): Process
    requires g < |p.nested|
  {
    p.(nested := p.nested[g := if p.nested[g] == 0 then 0 else p.nested[g] - 1])
  }

  // ---------------------------------------------------------------- steps

  predicate CanEnter(s: State, t: nat, g: nat) {
    IsThread(s, t) && g < |s.regs| && s.threads[t].pc.Running? && LocalOpen(s, t)
  }

  /** Takes the local gate and nests; a gate already entered needs no more. */
  function ApplyEnter(s: State, t: nat, g: nat): State
    requires CanEnter(s, t, g)
  {
    var p := Nest(LocalEnter(ProcOf(s, t), t), g);
    var th := s.threads[t];
    SetThread(SetProc(s, t, p), t,
              if p.nested[g] > 1 then th.(depth := th.depth[g := th.depth[g] + 1]) else th.(pc := Trying(g)))
  }

  predicate CanTry(s: State, t: nat) {
    AtGate(s, t) && s.threads[t].pc.Trying?
  }

  /** Reading the register takes it if it is free; otherwise the thread un-nests and backs off. */
  function ApplyTry(s: State, t: nat): State
    requires CanTry(s, t)
  {
    var th := s.threads[t];
    var g := th.pc.g;
    if s.regs[g] == None then
      SetThread(s.(regs := s.regs[g := Some(t)]), t, th.(pc := Running, depth := th.depth[g := th.depth[g] + 1]))
    else
      SetThread(SetProc(s, t, LocalLeave(Unnest(ProcOf(s, t), g))), t, th.(pc := BackingOff(g)))
  }

  predicate CanReenter(s: State, t: nat) {
    AtGate(s, t) && s.threads[t].pc.BackingOff? && LocalOpen(s, t)
  }

  /** Takes the local gate again and re-nests. */
  function ApplyReenter(s: State, t: nat): State
    requires CanReenter(s, t)
  {
    var th := s.threads[t];
    SetThread(SetProc(s, t, Nest(LocalEnter(ProcOf(s, t), t), th.pc.g)), t, th.(pc := Trying(th.pc.g)))
  }

  /** A thread leaves only a gate it has entered. */
  predicate CanLeave(s: State, t: nat, g: nat) {
    IsThread(s, t) && g < |s.regs| && s.threads[t].pc.Running? && s.threads[t].depth[g] > 0
  }

  /** Un-nests and gives the register up when that was the last nesting. */
  function ApplyLeave(s: State, t: nat, g: nat): State
    requires CanLeave(s, t, g)
  {
    var p := Unnest(ProcOf(s, t), g);
    var th := s.threads[t];
    var u := SetThread(SetProc(s, t, p), t, th.(pc := Leaving(g), depth := th.depth[g := th.depth[g] - 1]));
    if p.nested[g] == 0 then u.(regs := s.regs[g := None]) else u
  }

  predicate CanLeaveLocal(s: State, t: nat) {
    AtGate(s, t) && s.threads[t].pc.Leaving?
  }

  function ApplyLeaveLocal(s: State, t: nat): State
    requires CanLeaveLocal(s, t)
  {
    SetThread(SetProc(s, t, LocalLeave(ProcOf(s, t))), t, s.threads[t].(pc := Running))
  }

  predicate Can(s: State, a: Step) {
    match a
    case Enter(t, g) => CanEnter(s, t, g)
    case Try(t) => CanTry(s, t)
    case Reenter(t) => CanReenter(s, t)
    case Leave(t, g) => CanLeave(s, t, g)
    case LeaveLocal(t) => CanLeaveLocal(s, t)
  }

  function Apply(s: State, a: Step): State
    requires Can(s, a)
  {
    match a
    case Enter(t, g) => ApplyEnter(s, t, g)
    case Try(t) => ApplyTry(s, t)
    case Reenter(t) => ApplyReenter(s, t)
    case Leave(t, g) => ApplyLeave(s, t, g)
    case LeaveLocal(t) => ApplyLeaveLocal(s, t)
  }

  predicate Initial(s: State) {
    && Shape(s)
    && (forall g :: 0 <= g < |s.regs| ==> s.regs[g] == None)
    && (forall p :: 0 <= p < |s.procs| ==>
         s.procs[p].owner == None && s.procs[p].count == 0 && forall g :: 0 <= g < |s.regs| ==> s.procs[p].nested[g] == 0)
    && (forall t :: 0 <= t < |s.threads| ==>
         s.threads[t].pc.Running? && forall g :: 0 <= g < |s.regs| ==> s.threads[t].depth[g] == 0)
  }

  // ---------------------------------------------------------------- invariant

  function Sum(s: seq<nat>): nat {
    if s == [] then 0 else s[0] + Sum(s[1..])
  }

  lemma {:induction false} SumUpdate(s: seq<nat>, i: nat, x: nat)
    requires i < |s|
    ensures Sum(s[i := x]) + s[i] == Sum(s) + x
  {
    if i == 0 {
      assert s[i := x][1..] == s[1..];
    } else {
      assert s[i := x][1..] == s[1..][i - 1 := x];
      SumUpdate(s[1..], i - 1, x);
    }
  }

  lemma {:induction false} SumPositive(s: seq<nat>, i: nat)
    requires i < |s|
    ensures Sum(s) >= s[i]
  {
    if i > 0 {
      SumPositive(s[1..], i - 1);
    }
  }

  lemma {:induction false} SumZero(s: seq<nat>)
    requires forall i :: 0 <= i < |s| ==> s[i] == 0
    ensures Sum(s) == 0
  {
    if s != [] {
      SumZero(s[1..]);
    }
  }

  /** How often the thread holds its local gate. */
  function LocalHolds(th: Thread): nat {
    Sum(th.depth) + One(th.pc.Trying? || th.pc.Leaving?)
  }

  /** The owner's depth in gate g, one more while it is trying to get it. */
  function NestedBy(th: Thread, g: nat): nat
    requires g < |th.depth|
  {
    th.depth[g] + One(th.pc == Trying(g))
  }

  /** The process's local gate and nesting counts are those of thread t: it owns the local gate while
    * it holds it at all, and the counts are its own. */
  ghost predicate Matches(p: Process, th: Thread, t: nat) {
    && p.owner == (if LocalHolds(th) > 0 then Some(t) else None)
    && p.count == LocalHolds(th)
    && |p.nested| == |th.depth|
    && forall g: nat :: g < |p.nested| ==> p.nested[g] == NestedBy(th, g)
  }

  ghost predicate LocalInv(s: State)
    requires Shape(s)
  {
    && (forall t: nat :: t < |s.threads| ==>
         if ProcOf(s, t).owner == Some(t) then Matches(ProcOf(s, t), s.threads[t], t)
         else LocalHolds(s.threads[t]) == 0)
    && (forall p: nat :: p < |s.procs| ==> OwnerOk(s, p))
  }

  /** The owner is a thread of the process; without owner nothing is nested. */
  ghost predicate OwnerOk(s: State, p: nat)
    requires Shape(s) && p < |s.procs|
  {
    match s.procs[p].owner
    case None => s.procs[p].count == 0 && forall g: nat :: g < |s.regs| ==> s.procs[p].nested[g] == 0
    case Some(t) => t < |s.threads| && s.threads[t].proc == p
  }

  /** A register is taken by exactly the thread that is inside its gate. */
  ghost predicate RegisterInv(s: State)
    requires Shape(s)
  {
    forall t: nat, g: nat :: t < |s.threads| && g < |s.regs| ==>
      (s.threads[t].depth[g] > 0 <==> s.regs[g] == Some(t))
  }

  ghost predicate PcInv(s: State)
    requires Shape(s)
  {
    && (forall g :: 0 <= g < |s.regs| && s.regs[g].Some? ==> s.regs[g].value < |s.threads|)
    && (forall t: nat :: t < |s.threads| && !s.threads[t].pc.Running? ==>
         && s.threads[t].pc.g < |s.regs|
         && (s.threads[t].pc.Leaving? || s.threads[t].depth[s.threads[t].pc.g] == 0))
  }

  ghost predicate Inv(s: State) {
    Shape(s) && LocalInv(s) && RegisterInv(s) && PcInv(s)
  }

  lemma InitialInv(s: State)
    requires Initial(s)
    ensures Inv(s)
  {
    forall t: nat | t < |s.threads| ensures LocalHolds(s.threads[t]) == 0 {
      SumZero(s.threads[t].depth);
    }
  }

  // ---------------------------------------------------------------- one thread and its process

  lemma HoldsNothing(th: Thread)
    requires LocalHolds(th) == 0
    ensures forall g: nat :: g < |th.depth| ==> NestedBy(th, g) == 0
  {
    forall g: nat | g < |th.depth| ensures NestedBy(th, g) == 0 {
      SumPositive(th.depth, g);
    }
  }

  /** A thread that may enter its local gate, or holds it, has its process to itself. */
  lemma OpenMatches(s: State, t: nat)
    requires Inv(s) && IsThread(s, t) && (LocalOpen(s, t) || LocalHolds(s.threads[t]) > 0)
    ensures Matches(ProcOf(s, t), s.threads[t], t)
  {
    assert OwnerOk(s, s.threads[t].proc);
    if ProcOf(s, t).owner != Some(t) {
      HoldsNothing(s.threads[t]);
    }
  }

  /** A step of a thread that has its process to itself, before and after, keeps the rest as it is. */
  lemma LocalFrame(s: State, s': State, t: nat, th: Thread, p: Process)
    requires Inv(s) && IsThread(s, t) && |s'.regs| == |s.regs|
    requires Matches(ProcOf(s, t), s.threads[t], t) && Matches(p, th, t)
    requires th.proc == s.threads[t].proc && |th.depth| == |s.regs|
    requires s'.threads == s.threads[t := th] && s'.procs == s.procs[th.proc := p]
    ensures Shape(s') && LocalInv(s')
  {
    assert Shape(s');
    forall u: nat | u < |s'.threads|
      ensures if ProcOf(s', u).owner == Some(u) then Matches(ProcOf(s', u), s'.threads[u], u)
              else LocalHolds(s'.threads[u]) == 0
    {
      if u != t {
        assert if ProcOf(s, u).owner == Some(u) then Matches(ProcOf(s, u), s.threads[u], u)
               else LocalHolds(s.threads[u]) == 0;
      }
    }
    forall q: nat | q < |s'.procs| ensures OwnerOk(s', q) {
      assert OwnerOk(s, q);
      if q == th.proc && p.owner == None {
        HoldsNothing(th);
      }
    }
  }

  lemma EnterMatches(p: Process, th: Thread, t: nat, g: nat)
    requires Matches(p, th, t) && th.pc.Running? && g < |th.depth|
    ensures var p' := Nest(LocalEnter(p, t), g);
      && (p'.nested[g] > 1 <==> th.depth[g] > 0)
      && Matches(p', if th.depth[g] > 0 then th.(depth := th.depth[g := th.depth[g] + 1]) else th.(pc := Trying(g)), t)
  {
    SumUpdate(th.depth, g, th.depth[g] + 1);
    SumPositive(th.depth, g);
  }

  lemma TakeMatches(p: Process, th: Thread, t: nat, g: nat)
    requires Matches(p, th, t) && th.pc == Trying(g) && g < |th.depth|
    ensures Matches(p, th.(pc := Running, depth := th.depth[g := th.depth[g] + 1]), t)
  {
    SumUpdate(th.depth, g, th.depth[g] + 1);
  }

  lemma BackOffMatches(p: Process, th: Thread, t: nat, g: nat)
    requires Matches(p, th, t) && th.pc == Trying(g) && g < |th.depth|
    ensures Matches(LocalLeave(Unnest(p, g)), th.(pc := BackingOff(g)), t)
  {
  }

  lemma ReenterMatches(p: Process, th: Thread, t: nat, g: nat)
    requires Matches(p, th, t) && th.pc == BackingOff(g) && g < |th.depth|
    ensures Matches(Nest(LocalEnter(p, t), g), th.(pc := Trying(g)), t)
  {
  }

  lemma LeaveMatches(p: Process, th: Thread, t: nat, g: nat)
    requires Matches(p, th, t) && th.pc.Running? && g < |th.depth| && th.depth[g] > 0
    ensures var th' := th.(pc := Leaving(g), depth := th.depth[g := th.depth[g] - 1]);
      Matches(Unnest(p, g), th', t) && Unnest(p, g).nested[g] == th'.depth[g]
  {
    SumUpdate(th.depth, g, th.depth[g] - 1);
  }

  lemma LeaveLocalMatches(p: Process, th: Thread, t: nat)
    requires Matches(p, th, t) && th.pc.Leaving?
    ensures Matches(LocalLeave(p), th.(pc := Running), t)
  {
  }

  // ---------------------------------------------------------------- steps keep the invariant

  lemma EnterKeeps(s: State, t: nat, g: nat)
    requires Inv(s) && CanEnter(s, t, g)
    ensures Inv(ApplyEnter(s, t, g))
  {
    OpenMatches(s, t);
    EnterMatches(ProcOf(s, t), s.threads[t], t, g);
    var s' := ApplyEnter(s, t, g);
    LocalFrame(s, s', t, s'.threads[t], s'.procs[s.threads[t].proc]);
  }

  lemma TryKeeps(s: State, t: nat)
    requires Inv(s) && CanTry(s, t)
    ensures Inv(ApplyTry(s, t))
  {
    var g := s.threads[t].pc.g;
    OpenMatches(s, t);
    TakeMatches(ProcOf(s, t), s.threads[t], t, g);
    BackOffMatches(ProcOf(s, t), s.threads[t], t, g);
    var s' := ApplyTry(s, t);
    LocalFrame(s, s', t, s'.threads[t], s'.procs[s.threads[t].proc]);
  }

  lemma ReenterKeeps(s: State, t: nat)
    requires Inv(s) && CanReenter(s, t)
    ensures Inv(ApplyReenter(s, t))
  {
    OpenMatches(s, t);
    ReenterMatches(ProcOf(s, t), s.threads[t], t, s.threads[t].pc.g);
    var s' := ApplyReenter(s, t);
    LocalFrame(s, s', t, s'.threads[t], s'.procs[s.threads[t].proc]);
  }

  lemma LeaveKeeps(s: State, t: nat, g: nat)
    requires Inv(s) && CanLeave(s, t, g)
    ensures Inv(ApplyLeave(s, t, g))
  {
    SumPositive(s.threads[t].depth, g);
    OpenMatches(s, t);
    LeaveMatches(ProcOf(s, t), s.threads[t], t, g);
    var s' := ApplyLeave(s, t, g);
    LocalFrame(s, s', t, s'.threads[t], s'.procs[s.threads[t].proc]);
    LeaveRegisters(s, t, g);
  }

  /** The register is given up exactly when the thread has left its gate altogether. */
  lemma LeaveRegisters(s: State, t: nat, g: nat)
    requires Shape(s) && RegisterInv(s) && PcInv(s) && CanLeave(s, t, g)
    requires Unnest(ProcOf(s, t), g).nested[g] == s.threads[t].depth[g] - 1
    requires Shape(ApplyLeave(s, t, g))
    ensures RegisterInv(ApplyLeave(s, t, g)) && PcInv(ApplyLeave(s, t, g))
  {
    var s' := ApplyLeave(s, t, g);
    forall u: nat, h: nat | u < |s'.threads| && h < |s'.regs|
      ensures s'.threads[u].depth[h] > 0 <==> s'.regs[h] == Some(u)
    {
      assert s.threads[u].depth[h] > 0 <==> s.regs[h] == Some(u);
    }
  }

  lemma LeaveLocalKeeps(s: State, t: nat)
    requires Inv(s) && CanLeaveLocal(s, t)
    ensures Inv(ApplyLeaveLocal(s, t))
  {
    OpenMatches(s, t);
    LeaveLocalMatches(ProcOf(s, t), s.threads[t], t);
    var s' := ApplyLeaveLocal(s, t);
    LocalFrame(s, s', t, s'.threads[t], s'.procs[s.threads[t].proc]);
  }

  lemma StepKeepsInv(s: State, a: Step)
    requires Inv(s) && Can(s, a)
    ensures Inv(Apply(s, a))
  {
    match a
    case Enter(t, g) => EnterKeeps(s, t, g);
    case Try(t) => TryKeeps(s, t);
    case Reenter(t) => ReenterKeeps(s, t);
    case Leave(t, g) => LeaveKeeps(s, t, g);
    case LeaveLocal(t) => LeaveLocalKeeps(s, t);
  }

  // ---------------------------------------------------------------- theorems

  ghost predicate Reaches(s: State, steps: seq<Step>, s': State)
    decreases |steps|
  {
    if steps == [] then s' == s
    else
      var last := |steps| - 1;
      exists u :: Reaches(s, steps[..last], u) && Can(u, steps[last]) && s' == Apply(u, steps[last])
  }

  lemma {:induction false} EveryRunKeepsInv(s: State, steps: seq<Step>, s': State)
    requires Initial(s) && Reaches(s, steps, s')
    ensures Inv(s')
    decreases |steps|
  {
    if steps == [] {
      InitialInv(s);
    } else {
      var last := |steps| - 1;
      var u :| Reaches(s, steps[..last], u) && Can(u, steps[last]) && s' == Apply(u, steps[last]);
      EveryRunKeepsInv(s, steps[..last], u);
      StepKeepsInv(u, steps[last]);
    }
  }

  predicate IsInside(s: State, t: nat, g: nat) {
    IsThread(s, t) && g < |s.regs| && s.threads[t].depth[g] > 0
  }

  /** THEOREM. Over any number of processes and threads, two threads inside the same gate are one, and
    * the register of a gate is taken exactly while some thread is inside. */
  lemma MutualExclusion(s: State, steps: seq<Step>, s': State, g: nat)
    requires Initial(s) && Reaches(s, steps, s') && g < |s'.regs|
    ensures Shape(s')
    ensures forall t: nat, u: nat :: IsInside(s', t, g) && IsInside(s', u, g) ==> t == u
    ensures s'.regs[g].Some? <==> exists t: nat :: IsInside(s', t, g)
  {
    EveryRunKeepsInv(s, steps, s');
    if s'.regs[g].Some? {
      assert IsInside(s', s'.regs[g].value, g);
    }
  }

  /** THEOREM. The nesting count of a gate on a process is the depth of the local gate's owner in that
    * gate, one more while the owner is trying to get it, and zero when the local gate has no owner. */
  lemma NestedIsDepth(s: State, steps: seq<Step>, s': State, p: nat, g: nat)
    requires Initial(s) && Reaches(s, steps, s') && p < |s'.procs| && g < |s'.regs|
    ensures Shape(s')
    ensures s'.procs[p].owner.None? ==> s'.procs[p].nested[g] == 0
    ensures s'.procs[p].owner.Some? ==>
      var t := s'.procs[p].owner.value;
      t < |s'.threads| && s'.threads[t].proc == p && s'.procs[p].nested[g] == NestedBy(s'.threads[t], g)
  {
    EveryRunKeepsInv(s, steps, s');
    assert OwnerOk(s', p);
    if s'.procs[p].owner.Some? {
      var t := s'.procs[p].owner.value;
      assert ProcOf(s', t) == s'.procs[p];
    }
  }

  /** THEOREM. A thread inside a gate can always leave it, in two steps that wait for nobody: it is inside
    * once less, its process holds the local gate once less, and the register is given up exactly when it
    * was inside once. */
  lemma LeaveNeverWaits(s: State, steps: seq<Step>, s': State, t: nat, g: nat)
    requires Initial(s) && Reaches(s, steps, s')
    requires IsThread(s', t) && g < |s'.regs| && s'.threads[t].pc.Running? && s'.threads[t].depth[g] > 0
    ensures Can(s', Leave(t, g)) && Can(Apply(s', Leave(t, g)), LeaveLocal(t))
    ensures var (th, u) := (s'.threads[t], Apply(Apply(s', Leave(t, g)), LeaveLocal(t)));
      && u.threads == s'.threads[t := th.(depth := th.depth[g := (th.depth[g] - 1) as nat])]
      && u.regs == (if th.depth[g] == 1 then s'.regs[g := None] else s'.regs)
      && th.proc < |u.procs| == |s'.procs| && u.procs[th.proc].count == s'.procs[th.proc].count - 1
  {
    EveryRunKeepsInv(s, steps, s');
    SumPositive(s'.threads[t].depth, g);
    OpenMatches(s', t);
    assert NestedBy(s'.threads[t], g) == s'.threads[t].depth[g];
  }

  /** THEOREM. A thread inside a gate enters it again without waiting, whatever other threads do. */
  lemma ReentryNeverWaits(s: State, steps: seq<Step>, s': State, t: nat, g: nat)
    requires Initial(s) && Reaches(s, steps, s')
    requires IsThread(s', t) && g < |s'.regs| && s'.threads[t].pc.Running? && s'.threads[t].depth[g] > 0
    ensures CanEnter(s', t, g)
    ensures ApplyEnter(s', t, g).threads[t] ==
            s'.threads[t].(depth := s'.threads[t].depth[g := s'.threads[t].depth[g] + 1])
  {
    EveryRunKeepsInv(s, steps, s');
    SumPositive(s'.threads[t].depth, g);
    OpenMatches(s', t);
    EnterMatches(ProcOf(s', t), s'.threads[t], t, g);
  }
}

/** A gate object and its local gate as they are updated in place, one method for each step between two
  * lock operations. View is the process as this gate sees it. */
module GateObjects {
  import opened Counting
  import opened HwSpinlock

  class LocalGate {
    var owner: Option<nat>
    var count: nat

    constructor ()
      ensures owner == None && count == 0
    {
      owner, count := None, 0;
    }

    method Enter(t: nat)
      requires owner == None || owner == Some(t)
      modifies this
      ensures owner == Some(t) && count == old(count) + 1
    {
      owner := Some(t);
      count := count + 1;
    }

    method Leave()
      modifies this
      ensures if old(count) <= 1 then owner == None && count == 0
              else owner == old(owner) && count == old(count) - 1
    {
      if count <= 1 {
        owner, count := None, 0;
      } else {
        count := count - 1;
      }
    }
  }

  class GateHWSpinlock {
    const lockNum: nat
    const regs: array<Option<nat>>
    const localGate: LocalGate
    var nested: nat

    function View(): Process
      reads this, localGate
    {
      Process(localGate.owner, localGate.count, [nested])
    }

    constructor (lockNum: nat, regs: array<Option<nat>>, localGate: LocalGate)
      ensures nested == 0 && this.lockNum == lockNum && this.regs == regs && this.localGate == localGate
    {
      this.lockNum, this.regs, this.localGate, nested := lockNum, regs, localGate, 0;
    }

    /** The beginning of enter: the local gate, then the count; a gate already entered is entered again. */
    method Begin(t: nat) returns (entered: bool)
      requires localGate.owner == None || localGate.owner == Some(t)
      modifies `nested, localGate
      ensures View() == Nest(LocalEnter(old(View()), t), 0)
      ensures entered <==> View().nested[0] > 1
    {
      localGate.Enter(t);
      nested := nested + 1;
      entered := nested > 1;
    }

    /** Reading the lock register takes it when it is free. */
    method TestAndSet(t: nat) returns (locked: bool)
      requires lockNum < regs.Length
      modifies regs
      ensures locked <==> old(regs[lockNum]) == None
      ensures regs[..] == if locked then old(regs[..])[lockNum := Some(t)] else old(regs[..])
    {
      locked := regs[lockNum] == None;
      if locked {
        regs[lockNum] := Some(t);
      }
    }

    /** One round of the loop in enter: the register is taken, or the thread un-nests and backs off. */
    method Try(t: nat) returns (locked: bool)
      requires lockNum < regs.Length && nested > 0
      modifies this`nested, localGate, regs
      ensures locked <==> old(regs[lockNum]) == None
      ensures regs[..] == if locked then old(regs[..])[lockNum := Some(t)] else old(regs[..])
      ensures View() == if locked then old(View()) else LocalLeave(Unnest(old(View()), 0))
    {
      locked := TestAndSet(t);
      if !locked {
        nested := nested - 1;
        localGate.Leave();
      }
    }

    /** The end of a round: the local gate again, and the count. */
    method Reenter(t: nat)
      requires localGate.owner == None || localGate.owner == Some(t)
      modifies `nested, localGate
      ensures View() == Nest(LocalEnter(old(View()), t), 0)
    {
      localGate.Enter(t);
      nested := nested + 1;
    }

    /** The beginning of leave: the register is given up with the last nesting. */
    method Release()
      requires lockNum < regs.Length && nested > 0
      modifies `nested, regs
      ensures View() == Unnest(old(View()), 0)
      ensures regs[..] == if nested == 0 then old(regs[..])[lockNum := None] else old(regs[..])
    {
      nested := nested - 1;
      if nested == 0 {
        regs[lockNum] := None;
      }
    }

    /** The end of leave. */
    method LeaveLocal()
      modifies localGate
      ensures View() == LocalLeave(old(View()))
    {
      localGate.Leave();
    }
  }

  // ---------------------------------------------------------------- the machine's gates

  /** A process as its gate g sees it. */
  function Project(p: Process, g: nat): Process
    requires g < |p.nested|
  {
    Process(p.owner, p.count, [p.nested[g]])
  }

  /** The gate that a step is about. */
  function GateOf(s: State, a: Step): nat
    requires Can(s, a)
  {
    match a
    case Enter(_, g) => g
    case Leave(_, g) => g
    case _ => s.threads[a.t].pc.g
  }

  /** From s to s', gate g as process view v sees it, and the registers, change as in the step. */
  predicate AsObject(a: Step, g: nat, v: Process, v': Process, regs: seq<Option<nat>>, regs': seq<Option<nat>>,
                     runs: bool)
    requires g < |regs| && |v.nested| == |v'.nested| == 1
  {
    match a
    case Enter(t, _) => v' == Nest(LocalEnter(v, t), 0) && regs' == regs && (runs <==> v'.nested[0] > 1)
    case Try(t) =>
      && runs == (regs[g] == None)
      && v' == (if runs then v else LocalLeave(Unnest(v, 0)))
      && regs' == (if runs then regs[g := Some(t)] else regs)
    case Reenter(t) => v' == Nest(LocalEnter(v, t), 0) && regs' == regs && !runs
    case Leave(_, _) => v' == Unnest(v, 0) && regs' == (if v'.nested[0] == 0 then regs[g := None] else regs) && !runs
    case LeaveLocal(_) => v' == LocalLeave(v) && regs' == regs && runs
  }

  lemma ProcessAfter(s: State, a: Step)
    requires Can(s, a)
    ensures IsThread(Apply(s, a), a.t) && GateOf(s, a) < |s.regs|
    ensures var g := GateOf(s, a);
      ProcOf(Apply(s, a), a.t) ==
        match a
        case Enter(t, _) => Nest(LocalEnter(ProcOf(s, t), t), g)
        case Try(t) => if s.regs[g] == None then ProcOf(s, t) else LocalLeave(Unnest(ProcOf(s, t), g))
        case Reenter(t) => Nest(LocalEnter(ProcOf(s, t), t), g)
        case Leave(t, _) => Unnest(ProcOf(s, t), g)
        case LeaveLocal(t) => LocalLeave(ProcOf(s, t))
  {
  }

  lemma Projections(p: Process, g: nat, t: nat)
    requires g < |p.nested|
    ensures Project(Nest(LocalEnter(p, t), g), g) == Nest(LocalEnter(Project(p, g), t), 0)
    ensures Project(LocalLeave(Unnest(p, g)), g) == LocalLeave(Unnest(Project(p, g), 0))
    ensures Project(Unnest(p, g), g) == Unnest(Project(p, g), 0)
    ensures Project(LocalLeave(p), g) == LocalLeave(Project(p, g))
  {
  }

  /** THEOREM. Each step of the machine does to the registers and to the gate it is about, as that gate
    * sees its process, what the method of the gate object does, and leaves the nesting counts of the
    * process's other gates alone. */
  lemma StepsFollowObject(s: State, a: Step)
    requires Can(s, a)
    ensures IsThread(Apply(s, a), a.t) && GateOf(s, a) < |s.regs|
    ensures var (s', g) := (Apply(s, a), GateOf(s, a));
      && AsObject(a, g, Project(ProcOf(s, a.t), g), Project(ProcOf(s', a.t), g), s.regs, s'.regs,
                  s'.threads[a.t].pc.Running?)
      && forall h: nat :: h < |s.regs| && h != g ==> ProcOf(s', a.t).nested[h] == ProcOf(s, a.t).nested[h]
  {
    ProcessAfter(s, a);
    Projections(ProcOf(s, a.t), GateOf(s, a), a.t);
  }

  /** THEOREM. In every state of every run the thread that takes a step finds what the method asks for:
    * the local gate free or its own, and the gate nested when it un-nests. */
  lemma StepsMayCallObject(s: State, steps: seq<Step>, s': State, a: Step)
    requires Initial(s) && Reaches(s, steps, s') && Can(s', a)
    ensures GateOf(s', a) < |s'.regs|
    ensures var v := Project(ProcOf(s', a.t), GateOf(s', a));
      if a.Try? || a.Leave? then v.nested[0] > 0
      else a.LeaveLocal? || v.owner == None || v.owner == Some(a.t)
  {
    EveryRunKeepsInv(s, steps, s');
    if a.Try? || a.Leave? {
      if a.Leave? {
        SumPositive(s'.threads[a.t].depth, a.g);
      }
      OpenMatches(s', a.t);
    }
  }
}
