/** The resource allocator of GateMP: an array of use marks in memory that all processors share, scanned
  * and written by any threads of any processes while they are inside gate 0. */
module GateResources {
  import opened Counting
  import Hw = HwSpinlock

  /** Where a thread is in getFreeResource: it will read mark i next, or has seen it unused. */
  datatype Scan = NoScan | Reading(i: nat) | Claiming(i: nat)

  /** inUse is the shared array. History: holder[i] is the thread resource i was handed to, until some
    * thread releases it. */
  datatype State = State(gates: Hw.State, inUse: seq<bool>, scans: seq<Scan>, holder: seq<Option<nat>>)

  datatype Step =
    | Gate(a: Hw.Step) | Begin(t: nat) | Read(t: nat) | Claim(t: nat) | GiveUp(t: nat) | Release(t: nat, i: nat)

  predicate Inside(s: State, t: nat) {
    && Hw.IsThread(s.gates, t) && s.gates.regs != [] && s.gates.threads[t].pc.Running?
    && s.gates.threads[t].depth[0] > 0
  }

  predicate IsScan(s: State, t: nat) {
    Inside(s, t) && t < |s.scans|
  }

  /** A thread in the middle of a scan takes no step of the gates. */
  predicate Can(s: State, a: Step) {
    match a
    case Gate(b) => Hw.Can(s.gates, b) && b.t < |s.scans| && s.scans[b.t].NoScan?
    case Begin(t) => IsScan(s, t) && s.scans[t].NoScan?
    case Read(t) => IsScan(s, t) && s.scans[t].Reading? && s.scans[t].i < |s.inUse|
    case Claim(t) => IsScan(s, t) && s.scans[t].Claiming? && s.scans[t].i < |s.inUse| == |s.holder|
    case GiveUp(t) => IsScan(s, t) && s.scans[t].Reading? && s.scans[t].i >= |s.inUse|
    case Release(t, i) => IsScan(s, t) && s.scans[t].NoScan? && i < |s.inUse| == |s.holder|
  }

  function Apply(s: State, a: Step): State
    requires Can(s, a)
  {
    match a
    case Gate(b) => s.(gates := Hw.Apply(s.gates, b))
    case Begin(t) => s.(scans := s.scans[t := Reading(0)])
    case Read(t) =>
      var i := s.scans[t].i;
      s.(scans := s.scans[t := if s.inUse[i] then Reading(i + 1) else Claiming(i)])
    case Claim(t) =>
      var i := s.scans[t].i;
      s.(inUse := s.inUse[i := true], holder := s.holder[i := Some(t)], scans := s.scans[t := NoScan])
    case GiveUp(t) => s.(scans := s.scans[t := NoScan])
    case Release(t, i) => s.(inUse := s.inUse[i := false], holder := s.holder[i := None])
  }

  /** Resource 0 is in use from the start: it is the default gate's. */
  predicate Initial(s: State) {
    && Hw.Initial(s.gates) && |s.scans| == |s.gates.threads| && |s.inUse| == |s.holder| > 0 && s.inUse[0]
    && (forall t :: 0 <= t < |s.scans| ==> s.scans[t].NoScan?)
    && (forall i :: 0 <= i < |s.holder| ==> s.holder[i] == None)
  }

  // ---------------------------------------------------------------- invariant

  /** Only the thread inside gate 0 is in a scan; all marks it has passed are used, the one it is about
    * to claim is not. */
  ghost predicate ScanInv(s: State) {
    && |s.scans| == |s.gates.threads| && |s.inUse| == |s.holder|
    && (forall t: nat :: t < |s.scans| && !s.scans[t].NoScan? ==>
         && Inside(s, t) && s.scans[t].i <= |s.inUse|
         && (forall j :: 0 <= j < s.scans[t].i ==> s.inUse[j])
         && (s.scans[t].Claiming? ==> s.scans[t].i < |s.inUse| && !s.inUse[s.scans[t].i]))
  }

  /** A resource that is held is marked used. */
  ghost predicate HolderInv(s: State) {
    |s.inUse| == |s.holder| && forall i: nat :: i < |s.holder| && s.holder[i].Some? ==> s.inUse[i]
  }

  ghost predicate Inv(s: State) {
    Hw.Inv(s.gates) && ScanInv(s) && HolderInv(s)
  }

  lemma OnlyOneInside(s: State, t: nat, u: nat)
    requires Hw.Inv(s.gates) && Inside(s, t) && Inside(s, u)
    ensures t == u
  {
    assert s.gates.regs[0] == Some(t);
  }

  /** A gate step of one thread leaves the other threads as they are. */
  lemma GateStepFrame(g: Hw.State, b: Hw.Step)
    requires Hw.Can(g, b)
    ensures |Hw.Apply(g, b).threads| == |g.threads| && |Hw.Apply(g, b).regs| == |g.regs|
    ensures forall u: nat :: u < |g.threads| && u != b.t ==> Hw.Apply(g, b).threads[u] == g.threads[u]
  {
  }

  lemma GateKeeps(s: State, b: Hw.Step)
    requires Inv(s) && Can(s, Gate(b))
    ensures Inv(Apply(s, Gate(b)))
  {
    Hw.StepKeepsInv(s.gates, b);
    GateStepFrame(s.gates, b);
    var s' := Apply(s, Gate(b));
    forall t: nat | t < |s'.scans| && !s'.scans[t].NoScan? ensures Inside(s', t) {
      assert Inside(s, t);
    }
  }

  /** While a thread is inside gate 0, no other thread is scanning. */
  lemma OthersNotScanning(s: State, t: nat)
    requires Inv(s) && Inside(s, t)
    ensures forall u: nat :: u < |s.scans| && u != t ==> s.scans[u].NoScan?
  {
    forall u: nat | u < |s.scans| && u != t ensures s.scans[u].NoScan? {
      if !s.scans[u].NoScan? {
        OnlyOneInside(s, t, u);
      }
    }
  }

  lemma StepKeepsInv(s: State, a: Step)
    requires Inv(s) && Can(s, a)
    ensures Inv(Apply(s, a))
  {
    if a.Gate? {
      GateKeeps(s, a.a);
    } else {
      OthersNotScanning(s, a.t);
    }
  }

  ghost predicate Reaches(s: State, steps: seq<Step>, s': State)
    decreases |steps|
  {
    if steps == [] then s' == s
    else
      var last := |steps| - 1;
      exists u :: Reaches(s, steps[..last], u) && Can(u, steps[last]) && s' == Apply(u, steps[last])
  }

  lemma {:induction false} EveryRunKeepsInv(s: State, steps: seq<Step>, s': State)
    requires Initial(s) && Reaches(s, steps, s')
    ensures Inv(s')
    decreases |steps|
  {
    if steps == [] {
      Hw.InitialInv(s.gates);
    } else {
      var last := |steps| - 1;
      var u :| Reaches(s, steps[..last], u) && Can(u, steps[last]) && s' == Apply(u, steps[last]);
      EveryRunKeepsInv(s, steps[..last], u);
      StepKeepsInv(u, steps[last]);
    }
  }

  /** THEOREM. In no interleaving of any threads of any processes, which may release any resource, is a
    * resource handed out that was handed out before and not released since, and what is handed out is
    * the lowest free resource. */
  lemma NeverHandedOutTwice(s: State, steps: seq<Step>, s': State, t: nat)
    requires Initial(s) && Reaches(s, steps, s') && Can(s', Claim(t))
    ensures var i := s'.scans[t].i;
      && s'.holder[i] == None && !s'.inUse[i] && (forall j :: 0 <= j < i ==> s'.inUse[j])
      && Apply(s', Claim(t)).holder[i] == Some(t)
  {
    EveryRunKeepsInv(s, steps, s');
  }

  /** The gate steps of a run. */
  function GateSteps(steps: seq<Step>): seq<Hw.Step> {
    if steps == [] then []
    else
      var last := |steps| - 1;
      GateSteps(steps[..last]) + if steps[last].Gate? then [steps[last].a] else []
  }

  lemma OneMore(g: Hw.State, gateSteps: seq<Hw.Step>, u: Hw.State, b: Hw.Step)
    requires Hw.Reaches(g, gateSteps, u) && Hw.Can(u, b)
    ensures Hw.Reaches(g, gateSteps + [b], Hw.Apply(u, b))
  {
    assert (gateSteps + [b])[..|gateSteps|] == gateSteps;
  }

  lemma GateOrNot(s: State, a: Step)
    requires Can(s, a)
    ensures a.Gate? ==> Hw.Can(s.gates, a.a) && Apply(s, a).gates == Hw.Apply(s.gates, a.a)
    ensures !a.Gate? ==> Apply(s, a).gates == s.gates
  {
  }

  lemma GatesStep(g: Hw.State, gateSteps: seq<Hw.Step>, u: State, a: Step)
    requires Hw.Reaches(g, gateSteps, u.gates) && Can(u, a)
    ensures Hw.Reaches(g, gateSteps + (if a.Gate? then [a.a] else []), Apply(u, a).gates)
  {
    GateOrNot(u, a);
    if a.Gate? {
      OneMore(g, gateSteps, u.gates, a.a);
    } else {
      assert gateSteps + [] == gateSteps;
    }
  }

  /** The gates of a run go through a run of the gates. */
  lemma {:induction false} GatesRun(s: State, steps: seq<Step>, s': State)
    requires Reaches(s, steps, s')
    ensures Hw.Reaches(s.gates, GateSteps(steps), s'.gates)
    decreases |steps|
  {
    if steps != [] {
      var last := |steps| - 1;
      var u :| Reaches(s, steps[..last], u) && Can(u, steps[last]) && s' == Apply(u, steps[last]);
      GatesRun(s, steps[..last], u);
      GatesStep(s.gates, GateSteps(steps[..last]), u, steps[last]);
    }
  }

  /** The next step of a thread that is scanning, and how many it has left. */
  function NextOf(s: State, t: nat): Step
    requires t < |s.scans|
  {
    match s.scans[t]
    case NoScan => Begin(t)
    case Reading(i) => if i < |s.inUse| then Read(t) else GiveUp(t)
    case Claiming(_) => Claim(t)
  }

  function StepsLeft(s: State, t: nat): nat
    requires t < |s.scans|
  {
    match s.scans[t]
    case NoScan => 0
    case Reading(i) => if i <= |s.inUse| then |s.inUse| - i + 2 else 1
    case Claiming(_) => 1
  }

  /** THEOREM. An allocation under way can always take its next step and comes to an end: each step leaves
    * fewer, of as many as there are resources and two more, whatever other threads do in between. */
  lemma AllocationEnds(s: State, steps: seq<Step>, s': State, t: nat, a: Step)
    requires Initial(s) && Reaches(s, steps, s') && t < |s'.scans| && !s'.scans[t].NoScan? && Can(s', a)
    ensures Can(s', NextOf(s', t)) && StepsLeft(s', t) <= |s'.inUse| + 2
    ensures t < |Apply(s', a).scans|
    ensures a == NextOf(s', t) ==> StepsLeft(Apply(s', a), t) < StepsLeft(s', t)
    ensures a != NextOf(s', t) ==> Apply(s', a).scans[t] == s'.scans[t]
  {
    EveryRunKeepsInv(s, steps, s');
    if !a.Gate? {
      OthersNotScanning(s', t);
      assert a.t == t ==> a == NextOf(s', t);
    }
  }

  /** A thread inside gate 0, once or more often, can start an allocation, with the first resource, and can
    * release any resource. */
  lemma AllocationStarts(s: State, steps: seq<Step>, s': State, t: nat)
    requires Initial(s) && Reaches(s, steps, s') && t < |s'.scans| && s'.scans[t].NoScan?
    requires t < |s'.gates.threads| && s'.gates.threads[t].pc.Running? && s'.gates.regs != []
    requires |s'.gates.threads[t].depth| > 0 && s'.gates.threads[t].depth[0] > 0
    ensures Can(s', Begin(t)) && Apply(s', Begin(t)) == s'.(scans := s'.scans[t := Reading(0)])
    ensures forall i: nat :: i < |s'.inUse| ==> Can(s', Release(t, i))
  {
    assert Hw.Shape(s'.gates) && |s'.inUse| == |s'.holder| by {
      EveryRunKeepsInv(s, steps, s');
    }
    StartsInside(s', t);
  }

  lemma StartsInside(s: State, t: nat)
    requires Hw.Shape(s.gates) && |s.inUse| == |s.holder| && t < |s.scans| && s.scans[t].NoScan?
    requires t < |s.gates.threads| && s.gates.threads[t].pc.Running? && s.gates.regs != []
    requires s.gates.threads[t].depth[0] > 0
    ensures Can(s, Begin(t)) && Apply(s, Begin(t)) == s.(scans := s.scans[t := Reading(0)])
    ensures forall i: nat :: i < |s.inUse| ==> Can(s, Release(t, i))
  {
  }

  /** THEOREM. An allocation fails only when every resource was in use at the moment it gives up. */
  lemma RefusedOnlyWhenAllUsed(s: State, steps: seq<Step>, s': State, t: nat)
    requires Initial(s) && Reaches(s, steps, s') && Can(s', GiveUp(t))
    ensures forall j :: 0 <= j < |s'.inUse| ==> s'.inUse[j]
  {
    EveryRunKeepsInv(s, steps, s');
  }

  /** Some thread released resource i in the run. */
  predicate Released(steps: seq<Step>, i: nat) {
    exists k :: 0 <= k < |steps| && steps[k].Release? && steps[k].i == i
  }

  lemma ReleasedThen(steps: seq<Step>, i: nat)
    requires steps != []
    ensures var last := |steps| - 1;
      Released(steps, i) <==> Released(steps[..last], i) || (steps[last].Release? && steps[last].i == i)
  {
    var last := |steps| - 1;
    if k :| 0 <= k < |steps| && steps[k].Release? && steps[k].i == i {
      assert k < last ==> steps[..last][k] == steps[k];
    }
    if k :| 0 <= k < |steps[..last]| && steps[..last][k].Release? && steps[..last][k].i == i {
      assert steps[k] == steps[..last][k];
    }
  }

  predicate Claims(s: State, a: Step, i: nat)
    requires Can(s, a)
  {
    a.Claim? && s.scans[a.t].i == i
  }

  predicate Releases(a: Step, i: nat) {
    a.Release? && a.i == i
  }

  lemma MarkStep(s: State, a: Step, i: nat)
    requires Can(s, a) && i < |s.inUse| == |s.holder|
    ensures |Apply(s, a).inUse| == |Apply(s, a).holder| == |s.inUse|
    ensures Claims(s, a, i) ==> Apply(s, a).inUse[i] && Apply(s, a).holder[i].Some?
    ensures Releases(a, i) ==> !Apply(s, a).inUse[i] && Apply(s, a).holder[i].None?
    ensures !Claims(s, a, i) && !Releases(a, i) ==>
      Apply(s, a).inUse[i] == s.inUse[i] && Apply(s, a).holder[i] == s.holder[i]
  {
  }

  /** THEOREM. After any run, a resource is marked in use exactly when a thread was handed it and no thread
    * has released it since, or it was in use from the start and no thread has ever released it. */
  lemma {:induction false} MarkedWhileHeld(s: State, steps: seq<Step>, s': State, i: nat)
    requires Initial(s) && Reaches(s, steps, s') && i < |s.inUse|
    ensures |s'.inUse| == |s'.holder| == |s.inUse|
    ensures s'.inUse[i] <==> s'.holder[i].Some? || (s.inUse[i] && !Released(steps, i))
    decreases |steps|
  {
    if steps != [] {
      var last := |steps| - 1;
      var u :| Reaches(s, steps[..last], u) && Can(u, steps[last]) && s' == Apply(u, steps[last]);
      MarkedWhileHeld(s, steps[..last], u, i);
      ReleasedThen(steps, i);
      MarkStep(u, steps[last], i);
    }
  }

  /** THEOREM. A release clears the mark of that resource and no other, and a claim sets the mark of the
    * resource it hands out and no other; nothing else changes a mark. */
  lemma MarksChange(s: State, steps: seq<Step>, s': State, a: Step, i: nat)
    requires Initial(s) && Reaches(s, steps, s') && Can(s', a) && i < |s'.inUse|
    ensures |Apply(s', a).inUse| == |s'.inUse|
    ensures Apply(s', a).inUse[i] ==
      if a.Release? && a.i == i then false
      else if a.Claim? && s'.scans[a.t].i == i then true
      else s'.inUse[i]
  {
    EveryRunKeepsInv(s, steps, s');
  }

  // ---------------------------------------------------------------- the scan itself

  class GateMP {
    const inUse: array<bool>

    constructor (num: nat)
      requires num > 0
      ensures fresh(inUse) && inUse[..] == [true] + seq(num - 1, _ => false)
    {
      inUse := new bool[num](i => i == 0);
      new;
      assert inUse[..] == [true] + seq(num - 1, _ => false);
    }

    /** The loop of GateMP_getFreeResource, inside the default gate. */
    method GetFreeResource() returns (id: int)
      modifies inUse
      ensures id == -1 ==> inUse[..] == old(inUse[..]) && forall j :: 0 <= j < inUse.Length ==> inUse[j]
      ensures id != -1 ==>
        && 0 <= id < inUse.Length && !old(inUse[id]) && inUse[..] == old(inUse[..])[id := true]
        && (forall j :: 0 <= j < id ==> inUse[j])
    {
      id := 0;
      while id < inUse.Length
        invariant 0 <= id <= inUse.Length && inUse[..] == old(inUse[..])
        invariant forall j :: 0 <= j < id ==> inUse[j]
      {
        if !inUse[id] {
          inUse[id] := true;
          return;
        }
        id := id + 1;
      }
      id := -1;
    }

    method ReleaseResource(id: nat) returns (ok: bool)
      modifies inUse
      ensures ok == (id < inUse.Length)
      ensures inUse[..] == if ok then old(inUse[..])[id := false] else old(inUse[..])
    {
      ok := id < inUse.Length;
      if ok {
        inUse[id] := false;
      }
    }
  }
}
