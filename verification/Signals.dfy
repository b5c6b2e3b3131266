/** Signal handlers interrupting the main loop: no occurrence of a signal is lost or
    counted twice, wherever the handlers cut in. */
module Signals {
  import opened BaseState

  /** Where evsignal_process is: outside, about to look at counter `i`, or about to
      subtract the `ncalls` it has read from counter `i`. */
  datatype Main = Outside | Look(i: nat) | Subtract(i: nat, ncalls: nat)

  /** `evsigcaught` and `evsignal_caught` as in evsignal_info; `midway` handlers have counted
      but not set the flag yet.  `raised` and `drained` are totals: what the kernel has
      delivered, and what evsignal_process has passed on. */
  datatype Sys = Sys(evsigcaught: seq<nat>, evsignal_caught: bool, midway: nat, main: Main,
                     raised: seq<nat>, drained: seq<nat>)

  /** One atomic step of a handler or of the main loop. */
  datatype Step = Count(sig: nat) | Flag | Begin | Read | Take | End

  const ZEROES: seq<nat> := seq(NSIG, i => 0)

  const START := Sys(ZEROES, false, 0, Outside, ZEROES, ZEROES)

  predicate Shaped(s: Sys) {
    |s.evsigcaught| == NSIG && |s.raised| == NSIG && |s.drained| == NSIG
    && (s.main.Look? ==> 1 <= s.main.i <= NSIG) && (s.main.Subtract? ==> 1 <= s.main.i < NSIG)
  }

  predicate Enabled(s: Sys, step: Step)
    requires Shaped(s)
  {
    match step
    case Count(sig) => sig < NSIG
    case Flag => s.midway > 0
    case Begin => s.main.Outside?
    case Read => s.main.Look? && s.main.i < NSIG
    case Take => s.main.Subtract? && s.main.ncalls <= s.evsigcaught[s.main.i]
    case End => s.main.Look? && s.main.i == NSIG
  }

  function Do(s: Sys, step: Step): (s': Sys)
    requires Shaped(s) && Enabled(s, step)
    ensures Shaped(s')
  {
    match step
    // ++evsigcaught[sig], when signal `sig` arrives
    case Count(sig) =>
      s.(evsigcaught := s.evsigcaught[sig := s.evsigcaught[sig] + 1], raised := s.raised[sig := s.raised[sig] + 1],
         midway := s.midway + 1)
    // evsignal_caught = 1, in a handler
    case Flag => s.(evsignal_caught := true, midway := s.midway - 1)
    // evsignal_caught = 0, and the scan starts
    case Begin => s.(evsignal_caught := false, main := Look(1))
    // ncalls = evsigcaught[i]
    case Read =>
      var i, ncalls := s.main.i, s.evsigcaught[s.main.i];
      s.(main := if ncalls == 0 then Look(i + 1) else Subtract(i, ncalls))
    // evsigcaught[i] -= ncalls, and the events get their ncalls
    case Take =>
      var i, ncalls := s.main.i, s.main.ncalls;
      s.(evsigcaught := s.evsigcaught[i := s.evsigcaught[i] - ncalls], drained := s.drained[i := s.drained[i] + ncalls],
         main := Look(i + 1))
    case End => s.(main := Outside)
  }

  /** `s` is reachable by `steps`, each enabled when it is taken. */
  predicate Possible(s: Sys, steps: seq<Step>)
    requires Shaped(s)
    decreases |steps|
  {
    steps == [] || (Enabled(s, steps[0]) && Possible(Do(s, steps[0]), steps[1..]))
  }

  function After(s: Sys, steps: seq<Step>): (s': Sys)
    requires Shaped(s) && Possible(s, steps)
    ensures Shaped(s')
    decreases |steps|
  {
    if steps == [] then s else After(Do(s, steps[0]), steps[1..])
  }

  /** Each delivered occurrence is either still counted or passed on, and only once. */
  predicate Conserved(s: Sys)
    requires Shaped(s)
  {
    forall sig | 0 <= sig < NSIG :: s.raised[sig] == s.evsigcaught[sig] + s.drained[sig]
  }

  /** Something will make the main loop look again. */
  predicate Announced(s: Sys) {
    s.evsignal_caught || s.midway > 0
  }

  /** How much of counter `sig` the scan in progress will still see. */
  function Covered(s: Sys, sig: nat): nat
    requires Shaped(s) && sig < NSIG
  {
    match s.main
    case Outside => 0
    case Look(i) => if sig < i then 0 else s.evsigcaught[sig]
    case Subtract(i, ncalls) => if sig < i then 0 else if sig == i then ncalls else s.evsigcaught[sig]
  }

  /** What the scan in progress will not see is announced. */
  predicate Safe(s: Sys)
    requires Shaped(s)
  {
    && Conserved(s)
    && (s.main.Subtract? ==> 0 < s.main.ncalls <= s.evsigcaught[s.main.i])
    && (forall sig {:trigger s.evsigcaught[sig]} | 1 <= sig < NSIG && s.evsigcaught[sig] > Covered(s, sig) :: Announced(s))
  }

  lemma StepSafe(s: Sys, step: Step)
    requires Shaped(s) && Safe(s) && Enabled(s, step)
    ensures Safe(Do(s, step))
  {
    var s' := Do(s, step);
    forall sig {:trigger s'.evsigcaught[sig]} | 1 <= sig < NSIG && s'.evsigcaught[sig] > Covered(s', sig) ensures Announced(s') {
      assert s.evsigcaught[sig] > Covered(s, sig) ==> Announced(s);
    }
  }

  lemma {:induction false} RunSafe(s: Sys, steps: seq<Step>)
    requires Shaped(s) && Safe(s) && Possible(s, steps)
    ensures Safe(After(s, steps))
    decreases |steps|
  {
    if steps != [] {
      StepSafe(s, steps[0]);
      RunSafe(Do(s, steps[0]), steps[1..]);
    }
  }

  /** Over every interleaving of handlers and main loop: what was delivered is what is
      counted plus what was passed on; and whenever no scan is under way, a counter that is
      not zero has set the flag, or will when its handler goes on. */
  lemma NoSignalLost(steps: seq<Step>)
    requires Possible(START, steps)
    ensures var s := After(START, steps);
            && (forall sig | 0 <= sig < NSIG :: s.raised[sig] == s.evsigcaught[sig] + s.drained[sig])
            && (s.main.Outside? ==> forall sig | 1 <= sig < NSIG && s.evsigcaught[sig] > 0 :: s.evsignal_caught || s.midway > 0)
  {
    RunSafe(START, steps);
    var s := After(START, steps);
    forall sig | s.main.Outside? && 1 <= sig < NSIG && s.evsigcaught[sig] > 0 ensures s.evsignal_caught || s.midway > 0 {
      assert Covered(s, sig) == 0;
    }
  }

  // ----- one whole scan -----

  /** The scan left to itself: its next step, until it ends. */
  function NextStep(s: Sys): Step
    requires Shaped(s) && !s.main.Outside?
  {
    match s.main
    case Look(i) => if i < NSIG then Read else End
    case Subtract(_, _) => Take
  }

  function Finish(s: Sys): (s': Sys)
    requires Shaped(s) && Safe(s)
    ensures Shaped(s') && Safe(s') && s'.main.Outside?
    decreases match s.main case Outside => 0 case Look(i) => 2 * (NSIG - i) + 1 case Subtract(i, _) => 2 * (NSIG - i)
  {
    if s.main.Outside? then s else StepSafe(s, NextStep(s)); Finish(Do(s, NextStep(s)))
  }

  /** If no handler cuts in, a scan leaves no counter from 1 on above zero, and has passed
      on exactly what they held. */
  lemma {:induction false} FinishDrains(s: Sys)
    requires Shaped(s) && Safe(s) && !s.main.Outside?
    requires forall sig | 1 <= sig < s.main.i :: s.evsigcaught[sig] == 0
    requires s.main.Subtract? ==> s.main.ncalls == s.evsigcaught[s.main.i]
    ensures var s' := Finish(s);
            && (forall sig | 1 <= sig < NSIG :: s'.evsigcaught[sig] == 0 && s'.drained[sig] == s'.raised[sig])
            && s'.raised == s.raised && s'.midway == s.midway && s'.evsignal_caught == s.evsignal_caught
    decreases match s.main case Outside => 0 case Look(i) => 2 * (NSIG - i) + 1 case Subtract(i, _) => 2 * (NSIG - i)
  {
    var s1 := Do(s, NextStep(s));
    StepSafe(s, NextStep(s));
    if !s1.main.Outside? {
      FinishDrains(s1);
    } else {
      assert forall sig | 1 <= sig < NSIG :: s1.raised[sig] == s1.evsigcaught[sig] + s1.drained[sig];
    }
  }

  lemma ScanDrains(s: Sys)
    requires Shaped(s) && Safe(s) && s.main.Outside?
    ensures Safe(Do(s, Begin))
    ensures var s' := Finish(Do(s, Begin));
            && (forall sig | 1 <= sig < NSIG :: s'.evsigcaught[sig] == 0 && s'.drained[sig] == s'.raised[sig])
            && s'.raised == s.raised && !s'.evsignal_caught
  {
    StepSafe(s, Begin);
    FinishDrains(Do(s, Begin));
  }

  /** How often signal `sig` arrives in `steps`. */
  function Arrivals(steps: seq<Step>, sig: nat): nat {
    if steps == [] then 0 else (if steps[0] == Count(sig) then 1 else 0) + Arrivals(steps[1..], sig)
  }

  lemma {:induction false} RaisedIsArrivals(s: Sys, steps: seq<Step>, sig: nat)
    requires Shaped(s) && Possible(s, steps) && sig < NSIG
    ensures After(s, steps).raised[sig] == s.raised[sig] + Arrivals(steps, sig)
    decreases |steps|
  {
    if steps != [] {
      RaisedIsArrivals(Do(s, steps[0]), steps[1..], sig);
    }
  }

  /** After any run, a scan nobody cuts into has passed on every signal that ever arrived,
      as often as it arrived. */
  lemma EveryArrivalPassedOn(steps: seq<Step>, sig: nat)
    requires Possible(START, steps) && After(START, steps).main.Outside? && 1 <= sig < NSIG
    ensures Safe(Do(After(START, steps), Begin))
    ensures Finish(Do(After(START, steps), Begin)).drained[sig] == Arrivals(steps, sig)
  {
    RunSafe(START, steps);
    ScanDrains(After(START, steps));
    RaisedIsArrivals(START, steps, sig);
  }
}
