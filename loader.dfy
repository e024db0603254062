/** The loading screen's progress bar: every tick adds a random amount below
    15 and caps at 100; the label shows the rounded percentage. The timer is
    left out; the random draws are inputs, each in `[0, 1)`. */
module Loader {

  const Cap: real := 100.0
  const MaxIncrement: real := 15.0

  predicate IsDraw(r: real) { 0.0 <= r < 1.0 }

  /** The `setProgress` updater for one draw `r` of `Math.random()`: the
      result never exceeds 100; from progress at most 100 a non-negative
      draw never lowers it, and 100 stays 100; a rise that is not capped is
      below 15. */
  function Step(p: real, r: real): (q: real)
    ensures q <= Cap
    ensures p <= Cap && 0.0 <= r ==> p <= q
    ensures p == Cap && 0.0 <= r ==> q == Cap
    ensures q < Cap && r < 1.0 ==> q - p < MaxIncrement
  {
    var next := p + r * MaxIncrement;
    if next >= Cap then Cap else next
  }

  /** The progress after a sequence of ticks: no ticks leave it as it was,
      and after at least one tick it is at most 100, wherever it started. */
  function Steps(p: real, draws: seq<real>): (q: real)
    ensures draws == [] ==> q == p
    ensures draws != [] ==> q <= Cap
    decreases |draws|
  {
    if draws == [] then p else Steps(Step(p, draws[0]), draws[1..])
  }

  /** `Math.round`: the nearest integer, halves rounded up; on progress in
      `[0, 100]` a whole number in `0..100`. */
  function Round(x: real): (n: int)
    ensures n as real <= x + 0.5 < n as real + 1.0
    ensures 0.0 <= x <= Cap ==> 0 <= n <= 100
  {
    (x + 0.5).Floor
  }

  /** Over any run of ticks from a progress in `[0, 100]`, progress stays in
      `[0, 100]` and never decreases; once it is 100 it stays 100. */
  lemma {:induction false} RunProperties(p: real, draws: seq<real>)
    requires 0.0 <= p <= Cap
    requires forall k :: 0 <= k < |draws| ==> IsDraw(draws[k])
    ensures p <= Steps(p, draws) <= Cap
    ensures p == Cap ==> Steps(p, draws) == Cap
    decreases |draws|
  {
    if draws != [] {
      RunProperties(Step(p, draws[0]), draws[1..]);
    }
  }

  class ProgressBar {
    var progress: real

    /** Progress starts at 0. */
    constructor ()
      ensures progress == 0.0
    {
      progress := 0.0;
    }

    /** One interval tick with the draw `r`. */
    method Tick(r: real)
      requires IsDraw(r)
      modifies this
      ensures progress == Step(old(progress), r)
    {
      var newProgress := progress + r * MaxIncrement;
      progress := if newProgress >= Cap then Cap else newProgress;
    }

    /** A run of ticks, one per draw. */
    method Run(draws: seq<real>)
      requires forall k :: 0 <= k < |draws| ==> IsDraw(draws[k])
      modifies this
      ensures progress == Steps(old(progress), draws)
    {
      var i := 0;
      while i < |draws|
        invariant 0 <= i <= |draws|
        invariant Steps(old(progress), draws) == Steps(progress, draws[i..])
      {
        assert draws[i..][1..] == draws[i + 1..];
        Tick(draws[i]);
        i := i + 1;
      }
    }

    /** The label's number: a whole percentage in `0..100` while progress
        is in `[0, 100]`. */
    function Percent(): (n: int)
      reads this
      ensures n as real <= progress + 0.5 < n as real + 1.0
      ensures 0.0 <= progress <= Cap ==> 0 <= n <= 100
    {
      Round(progress)
    }
  }
}
