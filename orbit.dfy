/**
 * The orbit configuration of python/orbit.py: Earth defaults, the
 * perturbation flags and their transitions, changing the central body, and
 * the three ways `initialize` behaves (the base class raises, classical
 * elements are converted, a state vector is kept).
 *
 * The subclasses `OrbitElements` and `OrbitStateVector` become the tag
 * `Kind` of one `Orbit` class. Their constructors, which may raise, are the
 * methods `NewOrbit`, `NewOrbitElements` and `NewOrbitStateVector`, which
 * return a `Result`.
 */
module Orbits {
  import opened Wrappers
  import Dynamics

  /** Classical elements as given to `OrbitElements` (angles in degrees). */
  datatype ClassicalElements = ClassicalElements(a: real, e: real, i: real, w: real, ra: real, ta: real)

  /**
   * The conversion `OrbitElements.initialize` performs: elements to
   * inertial position and velocity under gravitational parameter `mu`
   * (degrees to radians, perifocal state, 3-1-3 rotation). Its trigonometry
   * is not part of this model.
   */
  type Conversion = (ClassicalElements, real) -> (Dynamics.Vec3, Dynamics.Vec3)

  /** Which class an orbit was built as, hence which `initialize` it runs. */
  datatype Kind = Base | Elements(elements: ClassicalElements, convert: Conversion) | StateVector

  /** Exceptions the constructors and operations raise. */
  datatype OrbitError =
    | NotImplemented       // NotImplementedError from the base `initialize`
    | InvalidStateFormat   // ValueError("Invalid input format. ...")
    | NoLength             // TypeError from `len()` of a scalar argument
    | UnknownBody          // KeyError from the central-body table

  /** A central-body table entry. */
  datatype BodyData = BodyData(R: real, mu: real)

  /** The two perturbation flags. */
  datatype Flags = Flags(drag: bool, j2: bool)

  const DefaultR: real := 6378.0
  const DefaultMu: real := 398600.0
  const DefaultWe: real := 7.2921159e-5

  // ---------------------------------------------------------------------
  // Perturbation flags

  /** `activate_perturbation(names)`: each flag named is set, the other kept. */
  function Activated(f: Flags, names: seq<string>): (g: Flags)
    ensures g.drag <==> "Drag" in names || f.drag
    ensures g.j2 <==> "J2" in names || f.j2
  {
    var f1 := if "Drag" in names then f.(drag := true) else f;
    if "J2" in names then f1.(j2 := true) else f1
  }

  /** `deactivate_perturbation(names)`: each flag named is cleared, the other kept. */
  function Deactivated(f: Flags, names: seq<string>): (g: Flags)
    ensures g.drag <==> "Drag" !in names && f.drag
    ensures g.j2 <==> "J2" !in names && f.j2
  {
    var f1 := if "Drag" in names then f.(drag := false) else f;
    if "J2" in names then f1.(j2 := false) else f1
  }

  /** The names the transitions react to; anything else is ignored. */
  function KnownNames(names: seq<string>): (known: seq<string>)
    ensures forall n :: n in known <==> n in names && (n == "Drag" || n == "J2")
  {
    if names == [] then []
    else if names[0] == "Drag" || names[0] == "J2" then [names[0]] + KnownNames(names[1..])
    else KnownNames(names[1..])
  }

  /** Unknown names change nothing. */
  lemma UnknownNamesIgnored(f: Flags, names: seq<string>)
    ensures Activated(f, names) == Activated(f, KnownNames(names))
    ensures Deactivated(f, names) == Deactivated(f, KnownNames(names))
  {
  }

  /** An empty list changes nothing. */
  lemma EmptyListChangesNothing(f: Flags)
    ensures Activated(f, []) == f && Deactivated(f, []) == f
  {
  }

  /** Activating twice is activating once, and likewise deactivating. */
  lemma TransitionsIdempotent(f: Flags, names: seq<string>)
    ensures Activated(Activated(f, names), names) == Activated(f, names)
    ensures Deactivated(Deactivated(f, names), names) == Deactivated(f, names)
  {
  }

  /** Deactivating what was just activated is the same as only deactivating. */
  lemma DeactivateUndoesActivate(f: Flags, names: seq<string>)
    ensures Deactivated(Activated(f, names), names) == Deactivated(f, names)
    ensures Activated(Deactivated(f, names), names) == Activated(f, names)
  {
  }

  // ---------------------------------------------------------------------
  // `initialize`

  /**
   * The state `initialize` leaves, given the one held before: the base
   * class raises, elements are converted under `mu`, a state-vector orbit
   * keeps what it has.
   */
  function Initialized(kind: Kind, mu: real, current: seq<real>): (r: Result<seq<real>, OrbitError>)
    ensures kind.Base? <==> r == Err(NotImplemented)
    ensures kind.Elements? ==>
              r.Ok? && |r.value| == 6 &&
              r.value[..3] == kind.convert(kind.elements, mu).0.Components() &&
              r.value[3..] == kind.convert(kind.elements, mu).1.Components()
    ensures kind.StateVector? ==> r == Ok(current)
  {
    match kind
    case Base => Err(NotImplemented)
    case Elements(el, convert) =>
      var (position, velocity) := convert(el, mu);
      Ok(position.Components() + velocity.Components())
    case StateVector => Ok(current)
  }

  // ---------------------------------------------------------------------
  // `OrbitStateVector` arguments

  /** A constructor argument: a number or an array. */
  datatype Arg = Scalar(value: real) | Array(items: seq<real>)

  /** Python's `len(arg)`, which raises on a number. */
  function Len(arg: Arg): (r: Result<nat, OrbitError>)
    ensures r.Ok? <==> arg.Array?
    ensures r.Ok? ==> r.value == |arg.items|
    ensures r.Err? ==> r.error == NoLength
  {
    match arg
    case Scalar(_) => Err(NoLength)
    case Array(items) => Ok(|items|)
  }

  /** Six numbers. */
  predicate SixScalars(args: seq<Arg>) {
    |args| == 6 && forall k :: 0 <= k < 6 ==> args[k].Scalar?
  }

  /** Two arrays of three elements each. */
  predicate TwoTriples(args: seq<Arg>) {
    |args| == 2 && args[0].Array? && args[1].Array? && |args[0].items| == 3 && |args[1].items| == 3
  }

  /** One array of six elements. */
  predicate OneSextuple(args: seq<Arg>) {
    |args| == 1 && args[0].Array? && |args[0].items| == 6
  }

  /** The values of six numeric arguments, in order. */
  function ScalarValues(args: seq<Arg>): (s: seq<real>)
    requires SixScalars(args)
    ensures |s| == 6 && forall k :: 0 <= k < 6 ==> s[k] == args[k].value
  {
    [args[0].value, args[1].value, args[2].value, args[3].value, args[4].value, args[5].value]
  }

  /**
   * Whether every argument of two has length 3, as `all(len(arg) == 3 for
   * arg in args)` evaluates it: left to right, stopping at the first false,
   * raising on a number it reaches.
   */
  function AllTriples(args: seq<Arg>): (r: Result<bool, OrbitError>)
    ensures r == Ok(true) <==> forall k :: 0 <= k < |args| ==> args[k].Array? && |args[k].items| == 3
    ensures r.Err? ==> r.error == NoLength
    ensures r.Err? ==>
              exists k :: 0 <= k < |args| && args[k].Scalar? &&
                forall m :: 0 <= m < k ==> args[m].Array? && |args[m].items| == 3
  {
    if args == [] then Ok(true)
    else match Len(args[0])
      case Err(e) => Err(e)
      case Ok(n) => if n != 3 then Ok(false) else AllTriples(args[1..])
  }

  /** The `if`/`elif`/`else` chain of `OrbitStateVector.__init__`. */
  function StateFromArgs(args: seq<Arg>): (r: Result<seq<real>, OrbitError>)
    ensures r.Ok? ==> |r.value| == 6
    ensures SixScalars(args) ==> r == Ok(ScalarValues(args))
    ensures TwoTriples(args) ==> r == Ok(args[0].items + args[1].items)
    ensures OneSextuple(args) ==> r == Ok(args[0].items)
    ensures r.Ok? <==> SixScalars(args) || TwoTriples(args) || OneSextuple(args)
    ensures r.Err? ==> r.error == InvalidStateFormat || r.error == NoLength
  {
    if |args| == 6 then
      // `np.array(args, dtype=float)`; a non-number among six is refused
      if SixScalars(args) then Ok(ScalarValues(args)) else Err(InvalidStateFormat)
    else
      var two: Result<bool, OrbitError> := if |args| == 2 then AllTriples(args) else Ok(false);
      if two.Err? then Err(two.error)
      else if two.value then Ok(args[0].items + args[1].items)
      else if |args| == 1 then
        match Len(args[0])
        case Err(e) => Err(e)
        case Ok(n) => if n == 6 then Ok(args[0].items) else Err(InvalidStateFormat)
      else Err(InvalidStateFormat)
  }

  /**
   * Which refusal each shape meets: the length error exactly when `len()`
   * is applied to a number (the single argument, or the first of two, or the
   * second of two after a first array of three); the invalid-format error
   * for every other refused shape.
   */
  lemma StateFromArgsErrors(args: seq<Arg>)
    ensures StateFromArgs(args) == Err(NoLength) <==>
              (|args| == 1 && args[0].Scalar?) ||
              (|args| == 2 && (args[0].Scalar? || (|args[0].items| == 3 && args[1].Scalar?)))
    ensures StateFromArgs(args) == Err(InvalidStateFormat) <==>
              StateFromArgs(args).Err? && StateFromArgs(args) != Err(NoLength)
  {
    if |args| == 2 && args[0].Array? && |args[0].items| == 3 {
      assert AllTriples(args) == AllTriples(args[1..]);
      assert args[1..][1..] == [];
    }
  }

  /** A single array of four elements is refused as an invalid format. */
  lemma FourElementArrayIsInvalid(v: seq<real>)
    requires |v| == 4
    ensures StateFromArgs([Array(v)]) == Err(InvalidStateFormat)
  {
  }

  /** A length other than 1, 2 and 6 is always refused as an invalid format. */
  lemma WrongCountIsInvalidFormat(args: seq<Arg>)
    requires |args| != 1 && |args| != 2 && |args| != 6
    ensures StateFromArgs(args) == Err(InvalidStateFormat)
  {
  }

  // ---------------------------------------------------------------------
  // The orbit object

  class Orbit {
    /** The class the orbit was built as. */
    const kind: Kind
    var R: real
    var mu: real
    var we: real
    var Drag: bool
    var J2: bool
    var initialState: seq<real>

    /** A constructed orbit: a concrete class and a six-element state. */
    ghost predicate Valid()
      reads this
    {
      !kind.Base? && |initialState| == 6
    }

    function CurrentFlags(): Flags
      reads this
    {
      Flags(Drag, J2)
    }

    /** What `equation_of_motion` reads from the orbit. */
    function Body(): (b: Dynamics.OrbitParams)
      reads this
      ensures b.R == R && b.mu == mu && b.we == we && b.drag == Drag
    {
      Dynamics.OrbitParams(R, mu, we, Drag)
    }

    /** `Orbit.__init__` up to its call of `initialize`: Earth and no perturbations. */
    constructor Defaults(kind: Kind)
      ensures this.kind == kind
      ensures R == DefaultR && mu == DefaultMu && we == DefaultWe
      ensures !Drag && !J2 && initialState == []
    {
      this.kind := kind;
      R := DefaultR;
      mu := DefaultMu;
      we := DefaultWe;
      Drag := false;
      J2 := false;
      initialState := [];
    }

    /** `initialize()`, dispatched on the class; on an error nothing changes. */
    method Initialize() returns (err: Option<OrbitError>)
      modifies this`initialState
      ensures var r := Initialized(kind, mu, old(initialState));
        if r.Ok? then err == None && initialState == r.value
        else err == Some(r.error) && initialState == old(initialState)
    {
      match kind
      case Base =>
        err := Some(NotImplemented);
      case Elements(el, convert) =>
        var (position, velocity) := convert(el, mu);
        initialState := position.Components() + velocity.Components();
        err := None;
      case StateVector =>
        err := None;
    }

    /** `activate_perturbation(names)`. */
    method ActivatePerturbation(names: seq<string>)
      modifies this`Drag, this`J2
      ensures CurrentFlags() == Activated(old(CurrentFlags()), names)
    {
      if "Drag" in names {
        Drag := true;
      }
      if "J2" in names {
        J2 := true;
      }
    }

    /** `deactivate_perturbation(names)`. */
    method DeactivatePerturbation(names: seq<string>)
      modifies this`Drag, this`J2
      ensures CurrentFlags() == Deactivated(old(CurrentFlags()), names)
    {
      if "Drag" in names {
        Drag := false;
      }
      if "J2" in names {
        J2 := false;
      }
    }

    /** `get_central_body()`. */
    method GetCentralBody() returns (radius: real, gravitational: real)
      ensures radius == R && gravitational == mu
    {
      radius, gravitational := R, mu;
    }

    /**
     * `change_central_body(name)`: look the body up (an unknown name raises
     * before anything changes), take its radius and gravitational
     * parameter, then `initialize` again. The flags and `we` are kept; a
     * state-vector orbit keeps its state, an elements orbit is converted
     * again under the new `mu`.
     */
    method ChangeCentralBody(table: map<string, BodyData>, name: string)
      returns (err: Option<OrbitError>)
      requires Valid()
      modifies this`R, this`mu, this`initialState
      ensures Valid()
      ensures name !in table ==> err == Some(UnknownBody) && unchanged(this)
      ensures name in table ==> err == None && R == table[name].R && mu == table[name].mu
      ensures name in table ==> initialState == Initialized(kind, mu, old(initialState)).value
      ensures kind.StateVector? ==> initialState == old(initialState)
    {
      if name !in table {
        return Some(UnknownBody);
      }
      R := table[name].R;
      mu := table[name].mu;
      err := Initialize();
    }
  }

  /**
   * The equation of motion reads the orbit's `R`, `mu`, `we` and `Drag` only:
   * two orbits that agree on those (whatever their `J2` flags, kinds and
   * states) give the same derivative.
   */
  lemma DerivativeIgnoresJ2(o1: Orbit, o2: Orbit, t: real, y: seq<real>, sat: Dynamics.Ballistics,
                            sqrt: real -> real, exp: real -> real)
    requires o1.R == o2.R && o1.mu == o2.mu && o1.we == o2.we && o1.Drag == o2.Drag
    requires Dynamics.NonDegenerate(y, o1.Body(), sat, sqrt)
    ensures Dynamics.NonDegenerate(y, o2.Body(), sat, sqrt)
    ensures Dynamics.EquationOfMotion(t, y, o1.Body(), sat, sqrt, exp)
         == Dynamics.EquationOfMotion(t, y, o2.Body(), sat, sqrt, exp)
  {
  }

  // ---------------------------------------------------------------------
  // Construction

  /** `Orbit()`: the base class's `initialize` always raises. */
  method NewOrbit() returns (r: Result<Orbit, OrbitError>)
    ensures r.Err? && r.error == NotImplemented
  {
    var o := new Orbit.Defaults(Base);
    var err := o.Initialize();
    r := Err(err.value);
  }

  /** `OrbitElements(a, e, i, w, RA, TA)`: defaults, then the converted state. */
  method NewOrbitElements(el: ClassicalElements, convert: Conversion) returns (o: Orbit)
    ensures fresh(o) && o.Valid() && o.kind.Elements? && o.kind.elements == el && o.kind.convert == convert
    ensures o.R == DefaultR && o.mu == DefaultMu && o.we == DefaultWe && !o.Drag && !o.J2
    ensures o.initialState == Initialized(o.kind, DefaultMu, []).value
  {
    o := new Orbit.Defaults(Elements(el, convert));
    var err := o.Initialize();
  }

  /**
   * `OrbitStateVector(*args)`: defaults and the no-op `initialize`, then
   * the state the arguments give, or the exception they raise.
   */
  method NewOrbitStateVector(args: seq<Arg>) returns (r: Result<Orbit, OrbitError>)
    ensures r.Err? <==> StateFromArgs(args).Err?
    ensures r.Err? ==> r.error == StateFromArgs(args).error
    ensures r.Ok? ==> fresh(r.value) && r.value.Valid() && r.value.kind.StateVector?
    ensures r.Ok? ==> r.value.initialState == StateFromArgs(args).value
    ensures r.Ok? ==>
              r.value.R == DefaultR && r.value.mu == DefaultMu && r.value.we == DefaultWe &&
              !r.value.Drag && !r.value.J2
  {
    var o := new Orbit.Defaults(StateVector);
    var _ := o.Initialize();
    var state := StateFromArgs(args);
    if state.Err? {
      return Err(state.error);
    }
    o.initialState := state.value;
    r := Ok(o);
  }
}
