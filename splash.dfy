/** The splash screen's progress bar: an interval adds five percent every
    100 ms and, on the first tick that finds the bar full, stops itself. */
module Splash {

  const Full: int := 100
  const Increment: int := 5

  /** The state updater: a full bar stays full, any other grows by five. */
  function Step(prev: int): (next: int)
    ensures prev >= Full ==> next == Full
    ensures prev < Full ==> next == prev + Increment
  {
    if prev >= Full then Full else prev + Increment
  }

  /** The values the bar can show: multiples of five from 0 to 100. */
  predicate Reachable(p: int) {
    0 <= p <= Full && p % Increment == 0
  }

  /** A step keeps the bar reachable, never shrinks it, and grows a bar
      that is not yet full. */
  lemma StepKeepsReachable(p: int)
    requires Reachable(p)
    ensures Reachable(Step(p))
    ensures p <= Step(p)
    ensures p < Full ==> p < Step(p)
  {
    if p < Full {
      assert p <= Full - Increment;
    }
  }

  /** The bar after n ticks from p. */
  function Iterate(p: int, n: nat): int
    decreases n
  {
    if n == 0 then p else Iterate(Step(p), n - 1)
  }

  /** From 0, n ticks show 5n percent until the bar fills. */
  lemma {:induction false} IterateFromBelow(p: int, n: nat)
    requires Reachable(p)
    ensures Iterate(p, n) == if p + Increment * n <= Full then p + Increment * n else Full
    decreases n
  {
    if n > 0 {
      StepKeepsReachable(p);
      IterateFromBelow(Step(p), n - 1);
    }
  }

  /** Starting at 0 the bar is full after exactly 20 ticks, every reading
      on the way stays reachable, and readings never decrease. */
  lemma FillsInTwentyTicks()
    ensures Iterate(0, 20) == Full
    ensures forall n: nat :: n < 20 ==> Iterate(0, n) < Full
    ensures forall n: nat :: Reachable(Iterate(0, n))
    ensures forall m: nat, n: nat :: m <= n ==> Iterate(0, m) <= Iterate(0, n)
  {
    forall n: nat ensures Iterate(0, n) == if Increment * n <= Full then Increment * n else Full {
      IterateFromBelow(0, n);
    }
  }

  /** The mounted component: the bar and whether its interval still runs. */
  class ProgressBar {
    var progress: int
    var running: bool

    predicate Valid()
      reads this
    {
      Reachable(progress) && (!running ==> progress == Full)
    }

    constructor ()
      ensures progress == 0 && running && Valid()
    {
      progress := 0;
      running := true;
    }

    /** One interval tick: the updater runs, and a tick that finds the bar
        already full clears the interval. */
    method Tick()
      requires Valid() && running
      modifies this
      ensures Valid()
      ensures progress == Step(old(progress))
      ensures running <==> old(progress) < Full
    {
      StepKeepsReachable(progress);
      if progress >= Full {
        running := false;
      }
      progress := Step(progress);
    }
  }
}
