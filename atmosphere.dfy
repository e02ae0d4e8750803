/**
 * The exponential atmosphere of `atmosphere(z)` (python/dynamics.py): a
 * 28-row table of reference altitudes and base densities, 27 scale heights,
 * clamping of the altitude to [0, 1000] km, a scan for the interval that
 * holds it, and the override of the index at the top of the table.
 *
 * The exponential itself is a parameter `exp`: the model settles which
 * table rows are read, not the floating-point value.
 */
module Atmosphere {
  import opened Wrappers

  /** Geometric altitudes `h` (km), the lower bounds of the intervals. */
  const Altitudes: seq<real> := [
    0.0, 25.0, 30.0, 40.0, 50.0, 60.0, 70.0, 80.0, 90.0, 100.0, 110.0, 120.0, 130.0, 140.0,
    150.0, 180.0, 200.0, 250.0, 300.0, 350.0, 400.0, 450.0, 500.0, 600.0, 700.0, 800.0,
    900.0, 1000.0]

  /** Base densities `r` (kg/m^3), one per altitude (USSA76). */
  const Densities: seq<real> := [
    1.225, 4.008e-2, 1.841e-2, 3.996e-3, 1.027e-3, 3.097e-4,
    8.283e-5, 1.846e-5, 3.416e-6, 5.606e-7, 9.708e-8, 2.222e-8,
    8.152e-9, 3.831e-9, 2.076e-9, 5.194e-10, 2.541e-10, 6.073e-11,
    1.916e-11, 7.014e-12, 2.803e-12, 1.184e-12, 5.215e-13, 1.137e-13,
    3.070e-14, 1.136e-14, 5.759e-15, 3.561e-15]

  /** Scale heights `H` (km): one per interval, so one fewer than the altitudes. */
  const ScaleHeights: seq<real> := [
    7.310, 6.427, 6.546, 7.360, 8.342, 7.583, 6.661, 5.927, 5.533,
    5.703, 6.782, 9.973, 13.243, 16.322, 21.652, 27.974, 34.934,
    43.342, 49.755, 54.513, 58.019, 60.980, 65.654, 76.377, 100.587,
    147.203, 208.020]

  /** Number of intervals the scan visits (`range(27)`). */
  const Intervals: nat := 27

  /** The altitude cap; also the last table altitude. */
  const Ceiling: real := 1000.0

  // ---------------------------------------------------------------------
  // Orderings of a table

  /** Every earlier entry is below every later one. */
  ghost predicate StrictlyIncreasing(s: seq<real>) {
    forall a, b :: 0 <= a < b < |s| ==> s[a] < s[b]
  }

  /** Every earlier entry is above every later one. */
  ghost predicate StrictlyDecreasing(s: seq<real>) {
    forall a, b :: 0 <= a < b < |s| ==> s[a] > s[b]
  }

  // ---------------------------------------------------------------------
  // The tables

  /**
   * The shapes of the three tables, the order of the altitudes and of the
   * densities, and the sign of the scale heights.
   */
  lemma TableFacts()
    ensures |Altitudes| == 28 && |Densities| == 28 && |ScaleHeights| == Intervals
    ensures Altitudes[0] == 0.0 && Altitudes[Intervals] == Ceiling
    ensures StrictlyIncreasing(Altitudes)
    ensures StrictlyDecreasing(Densities)
    ensures forall k :: 0 <= k < |ScaleHeights| ==> ScaleHeights[k] > 0.0
  {
  }

  /** The scale height of interval `k` is positive, so dividing by it is defined. */
  lemma ScaleHeightPositive(k: nat)
    requires k < Intervals
    ensures ScaleHeights[k] > 0.0
  {
    TableFacts();
  }

  // ---------------------------------------------------------------------
  // Clamping and interval selection

  /** The altitude after the out-of-range handling. */
  function Clamp(z: real): (c: real)
    ensures 0.0 <= c <= Ceiling
    ensures z > Ceiling ==> c == Ceiling
    ensures z < 0.0 ==> c == 0.0
    ensures 0.0 <= z <= Ceiling ==> c == z
  {
    if z > Ceiling then Ceiling else if z < 0.0 then 0.0 else z
  }

  /** The scan's test for interval `j`: `h[j] <= z < h[j + 1]`. */
  predicate InInterval(z: real, j: nat)
    requires j < Intervals
  {
    Altitudes[j] <= z < Altitudes[j + 1]
  }

  /** At most one interval holds a given altitude. */
  lemma IntervalUnique(z: real, j: nat, k: nat)
    requires j < Intervals && k < Intervals
    requires InInterval(z, j) && InInterval(z, k)
    ensures j == k
  {
    TableFacts();
  }

  /** The top altitude lies in no half-open interval, hence the override. */
  lemma CeilingInNoInterval(j: nat)
    requires j < Intervals
    ensures !InInterval(Ceiling, j)
  {
    TableFacts();
    if j + 1 < Intervals {
      assert Altitudes[j + 1] < Altitudes[Intervals];
    }
  }

  /** The interval holding `z`, searching downwards from interval `k`. */
  function SearchDown(z: real, k: nat): (i: nat)
    requires k < Intervals && Altitudes[0] <= z < Altitudes[k + 1]
    ensures i <= k && InInterval(z, i)
    decreases k
  {
    if Altitudes[k] <= z then k else SearchDown(z, k - 1)
  }

  /**
   * The index `atmosphere` settles on for a clamped altitude: the interval
   * holding it, and 26 at the top altitude, where no interval matches.
   */
  function Interval(z: real): (i: nat)
    requires 0.0 <= z <= Ceiling
    ensures i < Intervals
    ensures z < Ceiling ==> InInterval(z, i)
    ensures z == Ceiling ==> i == Intervals - 1
  {
    if z == Ceiling then Intervals - 1 else SearchDown(z, Intervals - 1)
  }

  /** `rho * exp(-(z - base) / height)`: the density `height` km scales above `base`. */
  function Interpolate(rho: real, base: real, height: real, z: real, exp: real -> real): real
    requires height != 0.0
  {
    rho * exp(-(z - base) / height)
  }

  /** Exponential interpolation in the selected interval. */
  function Lookup(z: real, exp: real -> real): real
    requires 0.0 <= z <= Ceiling
  {
    TableFacts();
    var i := Interval(z);
    Interpolate(Densities[i], Altitudes[i], ScaleHeights[i], z, exp)
  }

  /** The density `atmosphere(z)` returns. */
  function DensityAt(z: real, exp: real -> real): real {
    Lookup(Clamp(z), exp)
  }

  /**
   * `atmosphere(z)`: clamp, scan all 27 intervals keeping the last match,
   * force index 26 at the top, interpolate. `i` starts unbound (`None`);
   * the proof shows it is bound by the time it is read.
   */
  method Density(z: real, exp: real -> real) returns (density: real)
    ensures density == DensityAt(z, exp)
  {
    var alt := z;
    if alt > Ceiling {
      alt := Ceiling;
    } else if alt < 0.0 {
      alt := 0.0;
    }
    var i: Option<nat> := None;
    for j := 0 to Intervals
      invariant i.None? ==> forall k :: 0 <= k < j ==> !InInterval(alt, k)
      invariant i.Some? ==> i.value < j && InInterval(alt, i.value)
    {
      if InInterval(alt, j) {
        i := Some(j);
      }
    }
    if alt == Ceiling {
      i := Some(Intervals - 1);
    }
    assert alt == Clamp(z);
    ScanFindsInterval(alt, i);
    var n := i.value;
    ScaleHeightPositive(n);
    density := Interpolate(Densities[n], Altitudes[n], ScaleHeights[n], alt, exp);
  }

  /** What the scan and the override leave in `i` is the selected interval. */
  lemma ScanFindsInterval(z: real, i: Option<nat>)
    requires 0.0 <= z <= Ceiling
    requires i.None? ==> z < Ceiling && forall k :: 0 <= k < Intervals ==> !InInterval(z, k)
    requires i.Some? ==> i.value < Intervals && (z < Ceiling ==> InInterval(z, i.value))
    requires z == Ceiling ==> i == Some(Intervals - 1)
    ensures i == Some(Interval(z))
  {
    if z < Ceiling {
      var k := Interval(z);
      if i.Some? {
        IntervalUnique(z, i.value, k);
      }
    }
  }

  // ---------------------------------------------------------------------
  // Properties of the selection

  /** Every clamped altitude below the top lies in exactly one interval, the selected one. */
  lemma SelectionIsTheUniqueInterval(z: real, j: nat)
    requires 0.0 <= z < Ceiling && j < Intervals
    ensures InInterval(z, j) <==> j == Interval(z)
  {
    if InInterval(z, j) {
      IntervalUnique(z, j, Interval(z));
    }
  }

  /** Out-of-range altitudes read the same rows as their clamped value. */
  lemma DensityDependsOnlyOnClamped(z: real, exp: real -> real)
    ensures DensityAt(z, exp) == DensityAt(Clamp(z), exp)
    ensures z > Ceiling ==> DensityAt(z, exp) == DensityAt(Ceiling, exp)
    ensures z < 0.0 ==> DensityAt(z, exp) == DensityAt(0.0, exp)
  {
  }

  /**
   * At and above the top altitude the density is read from row 26 with
   * scale height `H[26]`, never from the last density row `r[27]`.
   */
  lemma TopUsesRow26(z: real, exp: real -> real)
    requires z >= Ceiling
    ensures Interval(Clamp(z)) == 26
    ensures DensityAt(z, exp) == Densities[26] * exp(-(Ceiling - Altitudes[26]) / ScaleHeights[26])
    ensures DensityAt(z, exp) == 5.759e-15 * exp(-100.0 / 208.020)
  {
  }

  /** Sea level and below read row 0 with no attenuation. */
  lemma SeaLevelUsesRow0(z: real, exp: real -> real)
    requires z <= 0.0
    ensures Interval(Clamp(z)) == 0
    ensures DensityAt(z, exp) == 1.225 * exp(0.0)
  {
  }
}
