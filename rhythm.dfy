/** Euclidean rhythms: `pulses` onsets spread as evenly as possible over
    `steps` slots by a Bresenham-style accumulator. */
module Rhythm {

  /** Slot `i` holds an onset when a multiple of `steps` is crossed between
      `i * pulses` and `(i + 1) * pulses`; this is the closed form of the
      accumulator loop. */
  predicate Onset(steps: nat, pulses: int, i: int)
    requires steps > 0
  {
    ((i + 1) * pulses) / steps > (i * pulses) / steps
  }

  /** The pattern `generateEuclideanPattern(steps, pulses)` returns. */
  function EuclideanPattern(steps: nat, pulses: int): (pattern: seq<bool>)
    ensures |pattern| == steps
  {
    if pulses > steps || pulses < 0 || steps == 0 then seq(steps, _ => false)
    else if pulses == steps then seq(steps, _ => true)
    else seq(steps, i requires 0 <= i < steps => Onset(steps, pulses, i))
  }

  /** Number of `true` entries. */
  function CountTrue(s: seq<bool>): nat {
    if s == [] then 0 else CountTrue(s[..|s| - 1]) + (if s[|s| - 1] then 1 else 0)
  }

  lemma MulAtLeast(k: int, d: int)
    requires k >= 1 && d > 0
    ensures k * d >= d
  {
    assert (k - 1) * d >= 0;
  }

  /** Quotient and remainder are determined by `x == q * d + r, 0 <= r < d`. */
  lemma DivModUnique(x: int, d: int, q: int, r: int)
    requires d > 0 && 0 <= r < d && x == q * d + r
    ensures x / d == q && x % d == r
  {
    var q', r' := x / d, x % d;
    assert x == q' * d + r';
    var k := q - q';
    assert k * d == r' - r;
    if k >= 1 {
      MulAtLeast(k, d);
    } else if k <= -1 {
      assert (-k) * d == -(k * d);
      MulAtLeast(-k, d);
    }
  }

  /** One step of the accumulator: adding `pulses` to `(i * pulses) % steps`
      either stays below `steps` (no onset) or wraps once (an onset). */
  lemma AccumulatorStep(steps: nat, pulses: int, i: nat)
    requires 0 <= pulses < steps
    ensures var a := (i * pulses) % steps;
      && (Onset(steps, pulses, i) <==> a + pulses >= steps)
      && ((i + 1) * pulses) % steps == (if a + pulses >= steps then a + pulses - steps else a + pulses)
      && ((i + 1) * pulses) / steps == (i * pulses) / steps + (if a + pulses >= steps then 1 else 0)
  {
    var q, a := (i * pulses) / steps, (i * pulses) % steps;
    assert (i + 1) * pulses == q * steps + a + pulses;
    if a + pulses >= steps {
      DivModUnique((i + 1) * pulses, steps, q + 1, a + pulses - steps);
    } else {
      DivModUnique((i + 1) * pulses, steps, q, a + pulses);
    }
  }

  /** `generateEuclideanPattern`: the edge cases, then the accumulator loop. */
  method GenerateEuclideanPattern(steps: nat, pulses: int) returns (result: seq<bool>)
    ensures result == EuclideanPattern(steps, pulses)
  {
    if pulses > steps || pulses < 0 || steps <= 0 {
      return seq(steps, _ => false);
    }
    if pulses == steps {
      return seq(steps, _ => true);
    }
    result := [];
    var accumulator := 0;
    for i := 0 to steps
      invariant |result| == i
      invariant accumulator == (i * pulses) % steps
      invariant forall k :: 0 <= k < i ==> result[k] == Onset(steps, pulses, k)
    {
      AccumulatorStep(steps, pulses, i);
      accumulator := accumulator + pulses;
      if accumulator >= steps {
        accumulator := accumulator - steps;
        result := result + [true];
      } else {
        result := result + [false];
      }
    }
  }

  /** In the loop case slot `i` of the pattern is the closed-form onset. */
  lemma PatternAt(steps: nat, pulses: int, i: nat)
    requires 0 <= pulses < steps && i < steps
    ensures EuclideanPattern(steps, pulses)[i] == Onset(steps, pulses, i)
  {
  }

  /** Counting the entries of a prefix one slot at a time. */
  lemma CountTrueSnoc(s: seq<bool>, k: nat)
    requires 0 < k <= |s|
    ensures CountTrue(s[..k]) == CountTrue(s[..k - 1]) + (if s[k - 1] then 1 else 0)
  {
    assert s[..k][..k - 1] == s[..k - 1];
  }

  /** The first `k` slots of a loop-case pattern hold `(k * pulses) / steps`
      onsets. */
  lemma {:induction false} OnsetsInPrefix(steps: nat, pulses: int, k: nat)
    requires 0 <= pulses < steps && k <= steps
    ensures CountTrue(EuclideanPattern(steps, pulses)[..k]) == (k * pulses) / steps
  {
    var p := EuclideanPattern(steps, pulses);
    if k == 0 {
      assert p[..0] == [];
    } else {
      OnsetsInPrefix(steps, pulses, k - 1);
      CountTrueSnoc(p, k);
      PatternAt(steps, pulses, k - 1);
      AccumulatorStep(steps, pulses, k - 1);
    }
  }

  /** For `0 <= pulses <= steps` the pattern has exactly `pulses` onsets. */
  lemma PulseCount(steps: nat, pulses: int)
    requires 0 <= pulses <= steps
    ensures CountTrue(EuclideanPattern(steps, pulses)) == pulses
  {
    var p := EuclideanPattern(steps, pulses);
    assert p[..steps] == p;
    if steps == 0 {
    } else if pulses == steps {
      AllSame(p, true);
    } else {
      OnsetsInPrefix(steps, pulses, steps);
      DivModUnique(steps * pulses, steps, pulses, 0);
    }
  }

  lemma {:induction false} AllSame(s: seq<bool>, b: bool)
    requires forall i :: 0 <= i < |s| ==> s[i] == b
    ensures CountTrue(s) == if b then |s| else 0
  {
    if s != [] {
      AllSame(s[..|s| - 1], b);
    }
  }

  /** Outside `0 <= pulses <= steps`, or with no steps, nothing sounds; with
      `pulses == steps` everything does. */
  lemma EdgeCases(steps: nat, pulses: int)
    ensures (pulses < 0 || pulses > steps) ==> CountTrue(EuclideanPattern(steps, pulses)) == 0
    ensures pulses == steps ==> forall i :: 0 <= i < steps ==> EuclideanPattern(steps, pulses)[i]
  {
    if pulses < 0 || pulses > steps {
      AllSame(EuclideanPattern(steps, pulses), false);
    }
  }

  /** With `0 < pulses < steps` the pattern starts with a rest and ends with
      an onset. */
  lemma FirstRestLastOnset(steps: nat, pulses: int)
    requires 0 < pulses < steps
    ensures !EuclideanPattern(steps, pulses)[0]
    ensures EuclideanPattern(steps, pulses)[steps - 1]
  {
    DivModUnique(pulses, steps, 0, pulses);
    DivModUnique(0 * pulses, steps, 0, 0);
    DivModUnique(steps * pulses, steps, pulses, 0);
    DivModUnique((steps - 1) * pulses, steps, pulses - 1, steps - pulses);
  }

  /** `c = ceil(steps / pulses)` is the least `c` with `steps <= c * pulses`. */
  lemma CeilingBounds(steps: nat, pulses: int)
    requires 0 < pulses < steps
    ensures var c := (steps + pulses - 1) / pulses;
      1 <= c <= steps && (c - 1) * pulses < steps <= c * pulses
  {
    var q, r := (steps - 1) / pulses, (steps - 1) % pulses;
    assert (q + 1) * pulses == q * pulses + pulses;
    DivModUnique(steps + pulses - 1, pulses, q + 1, r);
    var c := q + 1;
    assert c * pulses == steps + pulses - 1 - r;
    assert (c - 1) * pulses == steps - 1 - r;
    assert (c - 1) * (pulses - 1) >= 0;
  }

  /** A slot whose end `(i + 1) * pulses` stays below `steps` is a rest. */
  lemma RestBeforeFirstWrap(steps: nat, pulses: int, i: nat)
    requires 0 < pulses < steps && (i + 1) * pulses < steps
    ensures !Onset(steps, pulses, i)
  {
    assert i * pulses <= (i + 1) * pulses;
    DivModUnique(i * pulses, steps, 0, i * pulses);
    DivModUnique((i + 1) * pulses, steps, 0, (i + 1) * pulses);
  }

  /** The slot `ceil(steps / pulses) - 1` is the first whose end reaches
      `steps`, so it holds an onset. */
  lemma OnsetAtCeiling(steps: nat, pulses: int)
    requires 0 < pulses < steps
    ensures var first := (steps + pulses - 1) / pulses - 1;
      0 <= first < steps && Onset(steps, pulses, first)
  {
    CeilingBounds(steps, pulses);
    var first := (steps + pulses - 1) / pulses - 1;
    assert first * pulses < steps <= (first + 1) * pulses;
    assert (first + 1) * pulses == first * pulses + pulses;
    DivModUnique(first * pulses, steps, 0, first * pulses);
    DivModUnique((first + 1) * pulses, steps, 1, (first + 1) * pulses - steps);
  }

  /** Every slot before `ceil(steps / pulses) - 1` is a rest. */
  lemma RestsBeforeCeiling(steps: nat, pulses: int, i: nat)
    requires 0 < pulses < steps && i < (steps + pulses - 1) / pulses - 1
    ensures !Onset(steps, pulses, i)
  {
    CeilingBounds(steps, pulses);
    var first := (steps + pulses - 1) / pulses - 1;
    assert first * pulses < steps;
    assert (first - (i + 1)) * pulses >= 0;
    assert (i + 1) * pulses <= first * pulses;
    RestBeforeFirstWrap(steps, pulses, i);
  }

  /** The first onset falls on slot `ceil(steps / pulses) - 1`, not on slot 0. */
  lemma FirstOnset(steps: nat, pulses: int)
    requires 0 < pulses < steps
    ensures var first := (steps + pulses - 1) / pulses - 1;
      && 0 <= first < steps
      && EuclideanPattern(steps, pulses)[first]
      && forall i :: 0 <= i < first ==> !EuclideanPattern(steps, pulses)[i]
  {
    OnsetAtCeiling(steps, pulses);
    forall i | 0 <= i < (steps + pulses - 1) / pulses - 1
      ensures !EuclideanPattern(steps, pulses)[i]
    {
      RestsBeforeCeiling(steps, pulses, i);
    }
  }

  /** Four pulses over sixteen steps sound on slots 3, 7, 11 and 15. */
  lemma FourOverSixteen()
    ensures EuclideanPattern(16, 4) ==
      [false, false, false, true, false, false, false, true,
       false, false, false, true, false, false, false, true]
  {
  }

  /** Eight pulses over sixteen steps sound on every odd slot. */
  lemma EightOverSixteen()
    ensures forall i :: 0 <= i < 16 ==> EuclideanPattern(16, 8)[i] == (i % 2 == 1)
  {
    forall i | 0 <= i < 16
      ensures EuclideanPattern(16, 8)[i] == (i % 2 == 1)
    {
      DivModUnique(i * 8, 16, i / 2, (i % 2) * 8);
      DivModUnique((i + 1) * 8, 16, (i + 1) / 2, ((i + 1) % 2) * 8);
    }
  }
}
