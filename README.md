# Orbital mechanics: the discrete core, in Dafny

This project models the parts of the `orbital-mechanics` Python code that are
discrete and sequential, and proves properties of them. The floating-point
orbital physics around them is not modelled.

- `atmosphere.dfy`, module `Atmosphere`: `atmosphere(z)` from
  `python/dynamics.py`. It holds the USSA76 tables (28 altitudes, 28
  densities, 27 scale heights) and clamps the altitude to [0, 1000] km. It
  scans the 27 half-open intervals `h[j] <= z < h[j+1]` and keeps the match,
  forces index 26 at 1000 km, and interpolates exponentially. `Density` is
  the loop as written. It is proved equal to the function `DensityAt`. The
  lemmas show that the index is always bound, unique and in bounds for all
  three tables.
- `dynamics.dfy`, module `Dynamics`: the structure of `equation_of_motion`.
  The state splits into position and velocity. Gravity is `-(mu/|r|^3) r`.
  The drag term is multiplied by the orbit's `Drag` flag used as 0 or 1. The
  derivative is the velocity followed by the acceleration.
- `orbit.dfy`, module `Orbits`: the `Orbit` class with its Earth defaults,
  the `Drag`/`J2` flag transitions, `change_central_body`, and the three
  `initialize` behaviours. The subclasses `OrbitElements` and
  `OrbitStateVector` become a tag `Kind` on one class. `StateFromArgs` is the
  argument dispatch of `OrbitStateVector`. A raised exception is an `Err`
  value of a `Result` where the operation also returns a value, and `Some(e)`
  of an `Option` where it only changes state (`Orbit.Initialize`,
  `Orbit.ChangeCentralBody`, `Satellite.SaveState`).
- `satellite.dfy`, module `Satellites`: the `Satellite` class. It has
  defaults and six parallel history lists that `SaveState` appends to in
  place. Its invariant is that the lists have equal length, namely the
  number of samples saved.
- `wrappers.dfy`, module `Wrappers`: `Option` and `Result`.

Square root, the exponential and the elements-to-state conversion are
function-valued parameters. The model settles which values are combined and
which table rows are read, not floating-point results.

Two behaviours of the code are worth stating outright:

- At exactly 1000 km the code does not read the last table row (index 27,
  density `3.561e-15`). It forces index 26 and returns
  `r[26] * exp(-(1000 - 900) / H[26])`. Row 27 has no scale height, since
  `H` has only 27 entries (`TopUsesRow26`).
- The `J2` flag is set and cleared, but `equation_of_motion` never reads it,
  so there is no J2 term. `Dynamics.OrbitParams` carries no J2 flag, and
  `Orbits.DerivativeIgnoresJ2` proves that the flag does not affect the
  derivative.

## Model

| member | source | states |
|---|---|---|
| `Atmosphere.TableFacts` | python/dynamics.py:45-61 | `h` and `r` have 28 entries and `H` has 27; `h` runs from 0 to 1000 km and is strictly increasing; `r` is strictly decreasing; every scale height is positive |
| `Atmosphere.ScaleHeightPositive` | python/dynamics.py:58-61 | every interval's scale height is positive, so the division in the interpolation is defined |
| `Atmosphere.Clamp` | python/dynamics.py:63-67 | the altitude used lies in [0, 1000]; above 1000 it becomes 1000, below 0 it becomes 0, otherwise it is unchanged |
| `Atmosphere.IntervalUnique` | python/dynamics.py:46-48 | since `h` is strictly increasing, no altitude lies in two intervals `h[j] <= z < h[j+1]` |
| `Atmosphere.CeilingInNoInterval` | python/dynamics.py:70-75 | no half-open interval holds 1000 km, so without the override the scan would leave `i` unbound at the top |
| `Atmosphere.SearchDown` | python/dynamics.py:70-72 | for `h[0] <= z < h[k+1]` there is an interval at or below `k` that holds `z` |
| `Atmosphere.Interval` | python/dynamics.py:69-75 | the selected index is in 0..26, so it is in bounds for `H` as well as `h` and `r`; below 1000 km it is an interval holding the altitude; at 1000 km it is 26 |
| `Atmosphere.Density` | python/dynamics.py:44-80 | the clamp, the 27-step scan that keeps the matching `j`, the override at 1000 km and the interpolation give exactly `DensityAt(z)`; `i` is bound when read |
| `Atmosphere.ScanFindsInterval` | python/dynamics.py:70-75 | what the scan and the override leave in `i` is always bound and equals the selected interval |
| `Atmosphere.SelectionIsTheUniqueInterval` | python/dynamics.py:46-48 | for 0 <= z < 1000, interval `j` holds `z` if and only if `j` is the selected index |
| `Atmosphere.DensityDependsOnlyOnClamped` | python/dynamics.py:64-78 | the density at `z` equals the density at `Clamp(z)`; above the table it equals the density at 1000 km, below it the density at 0 km |
| `Atmosphere.TopUsesRow26` | python/dynamics.py:74-78 | at and above 1000 km the density is `r[26] * exp(-(1000 - h[26]) / H[26])`, that is `5.759e-15 * exp(-100 / 208.020)`, never `r[27]` |
| `Atmosphere.SeaLevelUsesRow0` | python/dynamics.py:64-78 | at and below 0 km the density is `1.225 * exp(0)` from row 0 |
| `Dynamics.AsNumber` | python/dynamics.py:37 | a Python bool used as a factor is 1 when true and 0 when false |
| `Dynamics.EquationOfMotion` | python/dynamics.py:4-40 | the derivative has 6 elements, its first three are the input velocity `vx, vy, vz`, and its last three are the acceleration |
| `Dynamics.DragOffIsTwoBody` | python/dynamics.py:35-38 | with `Drag` false the derivative is the velocity followed by the point-mass acceleration `-(mu/|r|^3) r` exactly |
| `Dynamics.DragOnAddsDrag` | python/dynamics.py:24-37 | with `Drag` true the acceleration is gravity plus the drag term divided by 1000 (m/s^2 to km/s^2) |
| `Dynamics.Autonomous` | python/dynamics.py:4-40 | the derivative does not depend on the time argument |
| `Orbits.Activated` | python/orbit.py:38-45 | after activation, `Drag` is set if and only if "Drag" was named or it was already set, and the same for `J2` |
| `Orbits.Deactivated` | python/orbit.py:47-54 | after deactivation, `Drag` is set if and only if "Drag" was not named and it was set before, and the same for `J2` |
| `Orbits.UnknownNamesIgnored` | python/orbit.py:38-54 | activation and deactivation depend only on the names "Drag" and "J2" in the list; other names are ignored |
| `Orbits.EmptyListChangesNothing` | python/orbit.py:38-54 | activating or deactivating with an empty list, as the driver does, leaves both flags as they were |
| `Orbits.TransitionsIdempotent` | python/orbit.py:38-54 | activating twice with the same names equals activating once, and likewise for deactivating |
| `Orbits.DeactivateUndoesActivate` | python/orbit.py:38-54 | deactivating after activating the same names equals only deactivating, and conversely |
| `Orbits.Initialized` | python/orbit.py:76-106 | the base `initialize` fails with NotImplementedError and no other kind fails; elements give a 6-element state whose halves are the converted position and velocity under the current `mu`; a state-vector orbit keeps its state |
| `Orbits.Len` | python/orbit.py:123-125 | `len()` of an array is its length; `len()` of a number raises |
| `Orbits.AllTriples` | python/orbit.py:123 | `all(len(arg) == 3 ...)` is true exactly when every argument is an array of 3 elements; it raises only when it reaches a number before any array whose length is not 3 |
| `Orbits.ScalarValues` | python/orbit.py:122 | six numeric arguments give the six values in order |
| `Orbits.StateFromArgs` | python/orbit.py:121-128 | six numbers give those numbers in order; two 3-element arrays give position then velocity; one 6-element array gives that array; construction succeeds exactly for these shapes and always yields 6 elements; every other shape raises the invalid-format error, or a length error for a number where an array is measured |
| `Orbits.StateFromArgsErrors` | python/orbit.py:121-128 | the length error is raised exactly when `len()` meets a number: the single argument, the first of two, or the second of two after a first array of three; every other refused shape raises the invalid-format error |
| `Orbits.FourElementArrayIsInvalid` | python/orbit.py:125-128 | a single array of four elements raises the invalid-format error |
| `Orbits.WrongCountIsInvalidFormat` | python/orbit.py:121-128 | any number of arguments other than 1, 2 or 6 raises the invalid-format error |
| `Orbits.DerivativeIgnoresJ2` | python/dynamics.py:13-16 | the equation of motion reads the orbit's `R`, `mu`, `we` and `Drag` only: two orbits that agree on these give the same derivative whatever their `J2` flags |
| `Orbits.Orbit.Defaults` | python/orbit.py:6-14 | a new orbit has R = 6378, mu = 398600, we = 7.2921159e-5, and `Drag` and `J2` false |
| `Orbits.Orbit.Initialize` | python/orbit.py:16-19 | `initialize` sets the state `Initialized` gives, or raises and changes nothing |
| `Orbits.Orbit.ActivatePerturbation` | python/orbit.py:38-45 | the new flags are `Activated` of the old flags; nothing else changes |
| `Orbits.Orbit.DeactivatePerturbation` | python/orbit.py:47-54 | the new flags are `Deactivated` of the old flags; nothing else changes |
| `Orbits.Orbit.GetCentralBody` | python/orbit.py:31-36 | returns the current radius and gravitational parameter |
| `Orbits.Orbit.ChangeCentralBody` | python/orbit.py:21-29 | an unknown body raises before anything changes; otherwise `R` and `mu` come from the table entry, the flags and `we` are kept, `initialize` runs again, and a state-vector orbit keeps its `initial_state` |
| `Orbits.NewOrbit` | python/orbit.py:5-19 | constructing a bare `Orbit` always fails with NotImplementedError |
| `Orbits.NewOrbitElements` | python/orbit.py:56-73 | an elements orbit has the Earth defaults and the state converted under the default `mu` |
| `Orbits.NewOrbitStateVector` | python/orbit.py:114-131 | a state-vector orbit has the Earth defaults and the state `StateFromArgs` gives, or construction raises that function's error |
| `Satellites.Satellite.constructor` | python/satellite.py:6-12 | a new satellite has the given mass, drag coefficient and area (defaults 100, 2.2, 1) and six empty histories |
| `Satellites.Satellite.SaveState` | python/satellite.py:14-31 | a solution shorter than six raises IndexError and changes nothing; otherwise `solution[0..5]` are appended to X, Y, Z, Vx, Vy, Vz, every list grows by exactly one, earlier samples are unchanged, and the lists stay of equal length |
| `Satellites.Satellite.GetState` | python/satellite.py:33-34 | returns the six histories in the order X, Y, Z, Vx, Vy, Vz, each as long as the number of samples, without changing them |
| `Satellites.Record` | python/satellite.py:26-31 | after `save_state` has been called once per sample of a trace, the histories hold exactly those samples, in order |

## Left out

- The numerical values of `exp` and `sqrt`: they are parameters. The density is proved to be a given table row times `exp` of a given argument, not a number. So the claim that density never increases with altitude is not stated.
- Floating point: every quantity is a Dafny `real`. Rounding, overflow to infinity and NaN are not modelled.
- Drag magnitude, cross product and normalisation (python/dynamics.py:24-33): these are written out over reals and used, but nothing numerical is proved about them.
- `Dynamics.EquationOfMotion`: requires non-zero position and relative-velocity norms and a non-zero mass. The source divides by the norms unguarded, and numpy gives infinities or NaN there (with `Drag` off as well, since the drag term is computed anyway). A zero mass makes `CD*area/mass`, a division of plain Python numbers, raise ZeroDivisionError whatever the `Drag` flag is; the model does not reproduce that exception.
- `Dynamics.EquationOfMotion`: takes the satellite's drag coefficient as a value. The source reads `Satellite.CD` (python/dynamics.py:19), but `Satellite` defines `cd` (python/satellite.py:9), so a call with a `Satellite` object raises AttributeError. The model does not reproduce that failure.
- The elements-to-state conversion (degrees to radians, perifocal position and velocity, 3-1-3 rotation; python/orbit.py:69-72, 87-106) is a parameter carried by the elements variant. Its trigonometry and accuracy are not modelled.
- J2 acceleration: the code has none; the flag is never read (see above).
- python/central_body.py reads a JSON file; the body table is a `map` parameter of `ChangeCentralBody`. A table entry without "R" or "mu" is not modelled.
- python/main.py (driver around SciPy's DOP853 integrator) and python/plots.py (matplotlib) are not part of this model. The driver calls `Satellite()` without the orbit argument it needs (python/main.py:40); that call would raise TypeError.
- Print diagnostics in python/orbit.py are logging only and are left out.
- Perturbation names are a list of strings. Python's substring test when a bare string is passed is not modelled.
- `Orbits.StateFromArgs`: six arguments that are not all numbers are refused with the invalid-format error. numpy would raise a ValueError for ragged input, but would build a 6-by-n array from six equal-length arrays; that case is not modelled.
- The `self.X is None` branch of `save_state`: the constructor always sets the six lists and nothing resets them to `None`. The model's lists are sequences that cannot be `None`, so the branch does not exist in it.
- `Orbits.NewOrbitStateVector`: with one six-element argument the source stores the caller's own object (`self.initial_state = args[0]`, python/orbit.py:126) without copying it, so a later change to that list or array changes the orbit's `initial_state`. The model stores a value and does not capture this aliasing.
- `Satellites.Satellite`: the model has no adapter from a satellite to the inputs of `Dynamics.EquationOfMotion`. With a real `Satellite` the source's read of `Satellite.CD` fails (see the `Dynamics.EquationOfMotion` line above), so no such adapter would be faithful.
- `get_state` returns the lists themselves, so a caller could mutate them through aliasing. The model returns their values.
