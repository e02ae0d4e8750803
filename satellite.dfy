/**
 * The satellite of python/satellite.py: physical properties with defaults
 * and a trajectory history kept as six parallel lists, one per state
 * component, each growing by one sample per `save_state`.
 */
module Satellites {
  import opened Wrappers
  import Orbits

  /** The exception `save_state` can raise. */
  datatype SatelliteError = IndexError  // `solution[k]` past the end

  const DefaultMass: real := 100.0
  const DefaultCd: real := 2.2
  const DefaultArea: real := 1.0

  class Satellite {
    const orbit: Orbits.Orbit
    const mass: real
    const cd: real
    const area: real
    var X: seq<real>
    var Y: seq<real>
    var Z: seq<real>
    var Vx: seq<real>
    var Vy: seq<real>
    var Vz: seq<real>
    /** The number of samples saved so far. */
    ghost var Saved: nat

    /** The six histories run in step: one entry per saved sample. */
    ghost predicate Valid()
      reads this
    {
      |X| == Saved && |Y| == Saved && |Z| == Saved &&
      |Vx| == Saved && |Vy| == Saved && |Vz| == Saved
    }

    /** The `k`-th saved sample, reassembled from the six histories. */
    function Sample(k: nat): (s: seq<real>)
      reads this
      requires Valid() && k < Saved
      ensures |s| == 6
      ensures s[0] == X[k] && s[1] == Y[k] && s[2] == Z[k]
      ensures s[3] == Vx[k] && s[4] == Vy[k] && s[5] == Vz[k]
    {
      [X[k], Y[k], Z[k], Vx[k], Vy[k], Vz[k]]
    }

    /**
     * `Satellite(orbit, mass=100, cd=2.2, area=1)`: the properties and six
     * empty histories. The lists are never `None` afterwards, so the `is
     * None` test of `save_state` never succeeds and is not modelled.
     */
    constructor (orbit: Orbits.Orbit, mass: real := DefaultMass, cd: real := DefaultCd, area: real := DefaultArea)
      ensures Valid() && Saved == 0
      ensures this.orbit == orbit && this.mass == mass && this.cd == cd && this.area == area
      ensures X == [] && Y == [] && Z == [] && Vx == [] && Vy == [] && Vz == []
    {
      this.orbit := orbit;
      this.mass := mass;
      this.cd := cd;
      this.area := area;
      X, Y, Z := [], [], [];
      Vx, Vy, Vz := [], [], [];
      Saved := 0;
    }

    /**
     * `save_state(solution)`: element k of the solution is appended to the
     * k-th history; earlier samples stay as they were. The six reads come
     * before any append, so a solution shorter than six raises IndexError
     * and leaves every history as it was.
     */
    method SaveState(solution: seq<real>) returns (err: Option<SatelliteError>)
      requires Valid()
      modifies this`X, this`Y, this`Z, this`Vx, this`Vy, this`Vz, this`Saved
      ensures Valid()
      ensures err.Some? <==> |solution| < 6
      ensures err.Some? ==> err.value == IndexError && unchanged(this)
      ensures err.None? ==> Saved == old(Saved) + 1
      ensures err.None? ==> X == old(X) + [solution[0]] && Y == old(Y) + [solution[1]] && Z == old(Z) + [solution[2]]
      ensures err.None? ==> Vx == old(Vx) + [solution[3]] && Vy == old(Vy) + [solution[4]] && Vz == old(Vz) + [solution[5]]
      ensures err.None? ==> Sample(old(Saved)) == solution[..6]
      ensures forall k :: 0 <= k < old(Saved) ==> Sample(k) == old(Sample(k))
    {
      if |solution| < 6 {
        return Some(IndexError);
      }
      var x, y, z := solution[0], solution[1], solution[2];
      var vx, vy, vz := solution[3], solution[4], solution[5];
      X := X + [x];
      Y := Y + [y];
      Z := Z + [z];
      Vx := Vx + [vx];
      Vy := Vy + [vy];
      Vz := Vz + [vz];
      Saved := Saved + 1;
      err := None;
    }

    /** `get_state()`: the six histories in the order X, Y, Z, Vx, Vy, Vz. */
    method GetState() returns (histories: seq<seq<real>>)
      requires Valid()
      ensures |histories| == 6
      ensures histories[0] == X && histories[1] == Y && histories[2] == Z
      ensures histories[3] == Vx && histories[4] == Vy && histories[5] == Vz
      ensures forall c :: 0 <= c < 6 ==> |histories[c]| == Saved
    {
      histories := [X, Y, Z, Vx, Vy, Vz];
    }
  }

  /**
   * A satellite that saved the samples `trace` in order holds them back in
   * the same order, and every history has one entry per sample.
   */
  method Record(s: Satellite, trace: seq<seq<real>>)
    requires s.Valid() && s.Saved == 0
    requires forall n :: 0 <= n < |trace| ==> |trace[n]| == 6
    modifies s
    ensures s.Valid() && s.Saved == |trace|
    ensures forall n :: 0 <= n < |trace| ==> s.Sample(n) == trace[n]
  {
    for n := 0 to |trace|
      invariant s.Valid() && s.Saved == n
      invariant forall m :: 0 <= m < n ==> s.Sample(m) == trace[m]
    {
      var err := s.SaveState(trace[n]);
      assert trace[n][..6] == trace[n];
    }
  }
}
