/**
 * The yaw-angle quadcopter of scaling_potato/quadcopter.py: position `x`,
 * velocity `v` and acceleration `a` (3-vectors), a yaw angle with its rate
 * and acceleration, the time of the last step, and the Dormand-Prince
 * integrator the vehicle advances itself with.
 *
 * The integrator is an oracle: `Solver` stands for scipy's `dopri5`, given
 * the right-hand side, the current time and state, and the requested time,
 * it answers with the time reached and the state there.  Nothing is assumed
 * about its result except that the state keeps its length.
 */
module Dynamics {
  import opened Wrappers

  /**
   * `2 * pi` as Python computes it: the IEEE-754 double nearest to 2π,
   * written out exactly.
   */
  const TwoPi: real := 6.28318530717958623199592693708837032318115234375

  /** Python's `y % (2 * pi)` on floats, over the reals: the floored remainder. */
  function WrapYaw(y: real): (r: real)
    ensures 0.0 <= r < TwoPi
    ensures 0.0 <= y < TwoPi ==> r == y
    ensures ((y - r) / TwoPi).Floor as real == (y - r) / TwoPi
  {
    y - TwoPi * (y / TwoPi).Floor as real
  }

  /** The remainder is the only angle in [0, 2π) that differs from `y` by whole turns. */
  lemma WrapYawUnique(y: real, r: real, k: int)
    requires 0.0 <= r < TwoPi
    requires y == r + k as real * TwoPi
    ensures WrapYaw(y) == r
  {
    assert y / TwoPi == r / TwoPi + k as real;
    assert (y / TwoPi).Floor == k;
  }

  /** Adding whole turns to an angle does not change its wrapped value. */
  lemma WrapYawPeriodic(y: real, k: int)
    ensures WrapYaw(y + k as real * TwoPi) == WrapYaw(y)
  {
    var r := WrapYaw(y);
    var m := (y / TwoPi).Floor;
    assert y == r + m as real * TwoPi;
    WrapYawUnique(y + k as real * TwoPi, r, m + k);
  }

  /** The fields of a `Quadcopter`, as one value. */
  datatype QuadState = QuadState(
    x: seq<real>,
    v: seq<real>,
    a: seq<real>,
    yaw: real,
    yawRate: real,
    yawAcc: real,
    time: Option<real>)

  /** Position, velocity and acceleration are 3-vectors. */
  predicate Wf(q: QuadState) {
    |q.x| == 3 && |q.v| == 3 && |q.a| == 3
  }

  /** The state `Quadcopter(initX)` starts in: at rest, yaw 0, no time yet. */
  function Initial(initX: seq<real>): (q: QuadState)
    requires |initX| == 3
    ensures Wf(q) && q.time.None?
  {
    QuadState(initX, [0.0, 0.0, 0.0], [0.0, 0.0, 0.0], 0.0, 0.0, 0.0, None)
  }

  /** The `state_vector` getter: `[x, v, yaw, yaw_rate]`. */
  function Pack(q: QuadState): (r: seq<real>)
    requires Wf(q)
    ensures |r| == 8
  {
    q.x + q.v + [q.yaw, q.yawRate]
  }

  /**
   * The `state_vector` setter: unpacks in the getter's order and wraps the
   * yaw into [0, 2π); acceleration, yaw acceleration and time stay.
   */
  function Unpack(q: QuadState, y: seq<real>): (q': QuadState)
    requires |y| >= 8
    ensures q'.x == y[..3] && q'.v == y[3..6] && q'.yawRate == y[7]
    ensures 0.0 <= q'.yaw < TwoPi && q'.yaw == WrapYaw(y[6])
    ensures q'.a == q.a && q'.yawAcc == q.yawAcc && q'.time == q.time
  {
    q.(x := y[..3], v := y[3..6], yaw := WrapYaw(y[6]), yawRate := y[7])
  }

  /** The `state_vector_dot` getter: `[v, a, yaw_rate, yaw_acc]`. */
  function PackDot(q: QuadState): (r: seq<real>)
    requires |q.v| == 3 && |q.a| == 3
    ensures |r| == 8
  {
    q.v + q.a + [q.yawRate, q.yawAcc]
  }

  /** The `state_vector_dot` setter: unpacks in the same order, with no wrap. */
  function UnpackDot(q: QuadState, y: seq<real>): (q': QuadState)
    requires |y| >= 8
    ensures q'.v == y[..3] && q'.a == y[3..6] && q'.yawRate == y[6] && q'.yawAcc == y[7]
    ensures q'.x == q.x && q'.yaw == q.yaw && q'.time == q.time
  {
    q.(v := y[..3], a := y[3..6], yawRate := y[6], yawAcc := y[7])
  }

  /** `rhs_equation(t, y)`: load `y` as the state, then read the derivative vector. */
  function Derivative(q: QuadState, t: real, y: seq<real>): (r: seq<real>)
    requires |y| >= 8 && |q.a| == 3
    ensures r == y[3..6] + q.a + [y[7], q.yawAcc]
  {
    PackDot(Unpack(q, y))
  }

  /** The state vector of the initial state (test/python/test_quadcopter.py:16-17). */
  lemma InitialStateVector(initX: seq<real>)
    requires |initX| == 3
    ensures Pack(Initial(initX)) == initX + [0.0, 0.0, 0.0, 0.0, 0.0]
    ensures PackDot(Initial(initX)) == [0.0, 0.0, 0.0, 0.0, 0.0, 0.0, 0.0, 0.0]
  {
  }

  /**
   * Setting the state vector and reading it back gives the vector with its
   * yaw entry wrapped, and so the vector itself exactly when its yaw is
   * already in [0, 2π).
   */
  lemma PackUnpack(q: QuadState, y: seq<real>)
    requires |y| == 8 && |q.a| == 3
    ensures Wf(Unpack(q, y))
    ensures Pack(Unpack(q, y)) == y[6 := WrapYaw(y[6])]
    ensures Pack(Unpack(q, y)) == y <==> 0.0 <= y[6] < TwoPi
  {
  }

  /** Unpacking the state's own vector changes nothing when its yaw is wrapped. */
  lemma UnpackPack(q: QuadState)
    requires Wf(q) && 0.0 <= q.yaw < TwoPi
    ensures Unpack(q, Pack(q)) == q
  {
  }

  /** The derivative vector's setter is an exact inverse of its getter, both ways. */
  lemma PackDotUnpackDot(q: QuadState, y: seq<real>)
    requires |y| == 8 && Wf(q)
    ensures PackDot(UnpackDot(q, y)) == y
    ensures UnpackDot(q, PackDot(q)) == q
  {
  }

  /**
   * `v` and `yaw_rate` belong to both vectors: setting the derivative vector
   * changes those entries of the state vector and keeps position and yaw.
   */
  lemma UnpackDotAliasesState(q: QuadState, y: seq<real>)
    requires |y| >= 8 && Wf(q)
    ensures Wf(UnpackDot(q, y))
    ensures Pack(UnpackDot(q, y)) == q.x + y[..3] + [q.yaw, y[6]]
  {
  }

  /**
   * The right-hand side ignores the time, the position entries and the yaw
   * entry of `y`, and of the old state it reads only `a` and `yaw_acc`.
   */
  lemma DerivativeIndependence(q: QuadState, q': QuadState, t: real, t': real, y: seq<real>, y': seq<real>)
    requires |y| >= 8 && |y'| >= 8 && |q.a| == 3
    requires q'.a == q.a && q'.yawAcc == q.yawAcc
    requires y'[3..6] == y[3..6] && y'[7] == y[7]
    ensures Derivative(q', t', y') == Derivative(q, t, y)
  {
  }

  /**
   * Each evaluation of `rhs_equation` overwrites the state with its trial
   * vector, but only the fields it then ignores: after any number of such
   * evaluations the derivative is the one of the state it started from.
   */
  lemma DerivativeIgnoresOverwrites(q: QuadState, trial: seq<real>, t: real, y: seq<real>)
    requires |trial| >= 8 && |y| >= 8 && |q.a| == 3
    ensures Derivative(Unpack(q, trial), t, y) == Derivative(q, t, y)
  {
    DerivativeIndependence(q, Unpack(q, trial), t, t, y, y);
  }

  /** A right-hand side `f(t, y)` handed to the integrator. */
  type Rhs = (real, seq<real>) --> seq<real>

  /**
   * The `dopri5` integrator as an oracle: `solve(f, t0, y0, t1)` is the
   * time reached and the state there when integrating `f` from `(t0, y0)`
   * towards `t1`.  Nothing is known of it but that the state keeps its
   * length.
   */
  type Solver = solve: (Rhs, real, seq<real>, real) -> (real, seq<real>)
    | forall f, t0, y0, t1 :: |solve(f, t0, y0, t1).1| == |y0|
    witness (f: Rhs, t0: real, y0: seq<real>, t1: real) => (t1, y0)

  /**
   * The bound `rhs_equation` as the integrator sees it during one step:
   * its acceleration inputs are those of the state the step started in.
   */
  function RhsOf(q: QuadState): (f: Rhs)
    requires |q.a| == 3
    ensures forall t, y :: |y| >= 8 ==> f.requires(t, y) && f(t, y) == y[3..6] + q.a + [y[7], q.yawAcc]
  {
    (t: real, y: seq<real>) requires |y| >= 8 => Derivative(q, t, y)
  }

  /** scipy's `ode` object: the integrator's own time and state. */
  class Ode {
    const solve: Solver
    var t: real
    var y: seq<real>

    /** `ode(f).set_integrator('dopri5')`: no initial value yet. */
    constructor (solve: Solver)
      ensures this.solve == solve && y == []
    {
      this.solve := solve;
      t := 0.0;
      y := [];
    }

    /** `set_initial_value(y0, t0)`. */
    method SetInitialValue(y0: seq<real>, t0: real)
      modifies this
      ensures y == y0 && t == t0
    {
      y, t := y0, t0;
    }

    /** `integrate(t1)`: advance from the integrator's own time and state. */
    method Integrate(t1: real, f: Rhs)
      modifies this
      ensures (t, y) == solve(f, old(t), old(y), t1)
      ensures |y| == |old(y)|
    {
      var reached := solve(f, t, y, t1);
      t, y := reached.0, reached.1;
    }
  }

  /** `Quadcopter`: the vehicle, updated in place by its setters and `step`. */
  class Quadcopter {
    var x: seq<real>
    var v: seq<real>
    var a: seq<real>
    var yaw: real
    var yawRate: real
    var yawAcc: real
    var time: Option<real>
    const integrator: Ode

    function Model(): QuadState
      reads this
    {
      QuadState(x, v, a, yaw, yawRate, yawAcc, time)
    }

    /**
     * The vectors are 3-vectors, and once stepped the integrator holds an
     * 8-entry state at the vehicle's recorded time.
     */
    ghost predicate Valid()
      reads this, integrator
    {
      && Wf(Model())
      && (time.Some? ==> integrator.t == time.value && |integrator.y| == 8)
    }

    /** `Quadcopter(init_x)`. */
    constructor (initX: seq<real>, solve: Solver)
      requires |initX| == 3
      ensures Valid() && Model() == Initial(initX)
      ensures fresh(integrator) && integrator.solve == solve && integrator.y == []
    {
      x := initX;
      v := [0.0, 0.0, 0.0];
      a := [0.0, 0.0, 0.0];
      yaw := 0.0;
      yawRate := 0.0;
      yawAcc := 0.0;
      time := None;
      integrator := new Ode(solve);
    }

    /** The `state_vector` property. */
    function StateVector(): (r: seq<real>)
      reads this
      requires Wf(Model())
      ensures r == Pack(Model())
    {
      x + v + [yaw, yawRate]
    }

    /** Assigning the `state_vector` property. */
    method SetStateVector(value: seq<real>)
      requires |value| >= 8
      modifies this
      ensures Model() == Unpack(old(Model()), value)
      ensures 0.0 <= yaw < TwoPi
      ensures old(Valid()) ==> Valid()
    {
      x := value[..3];
      v := value[3..6];
      yaw := WrapYaw(value[6]);
      yawRate := value[7];
    }

    /** The `state_vector_dot` property. */
    function StateVectorDot(): (r: seq<real>)
      reads this
      requires |v| == 3 && |a| == 3
      ensures r == PackDot(Model())
    {
      v + a + [yawRate, yawAcc]
    }

    /** Assigning the `state_vector_dot` property. */
    method SetStateVectorDot(value: seq<real>)
      requires |value| >= 8
      modifies this
      ensures Model() == UnpackDot(old(Model()), value)
      ensures old(Valid()) ==> Valid()
    {
      v := value[..3];
      a := value[3..6];
      yawRate := value[6];
      yawAcc := value[7];
    }

    /** `rhs_equation(t, y)`: overwrites the state with `y`, returns the derivative vector. */
    method RhsEquation(t: real, y: seq<real>) returns (dy: seq<real>)
      requires |y| >= 8 && |a| == 3
      modifies this
      ensures Model() == Unpack(old(Model()), y)
      ensures dy == Derivative(old(Model()), t, y)
      ensures old(Valid()) ==> Valid()
      ensures dy == y[3..6] + old(a) + [y[7], old(yawAcc)]
    {
      SetStateVector(y);
      dy := StateVectorDot();
    }

    /**
     * `step(time)`.  The first call seeds the integrator with the current
     * state vector and records the time, leaving the state alone; every
     * later call integrates to `t` and takes the integrator's time and
     * state.
     */
    method Step(t: real)
      requires Valid()
      modifies this, integrator
      ensures Valid()
      ensures old(time).None? ==>
        && Model() == old(Model()).(time := Some(t))
        && integrator.y == Pack(old(Model())) && integrator.t == t
      ensures old(time).Some? ==>
        var out := integrator.solve(RhsOf(old(Model())), old(integrator.t), old(integrator.y), t);
        && integrator.t == out.0 && integrator.y == out.1
        && Model() == Unpack(old(Model()), out.1).(time := Some(out.0))
      ensures old(time).Some? ==> 0.0 <= yaw < TwoPi
    {
      if time.None? {
        integrator.SetInitialValue(StateVector(), t);
        time := Some(t);
      } else {
        integrator.Integrate(t, RhsOf(Model()));
        time := Some(integrator.t);
        SetStateVector(integrator.y);
      }
    }
  }

  /** test_state_vector and test_state_vector_dot, from the contracts alone. */
  method AccessorScenarios(solve: Solver)
  {
    var qc := new Quadcopter([1.0, 2.0, 3.0], solve);
    assert qc.StateVector() == [1.0, 2.0, 3.0, 0.0, 0.0, 0.0, 0.0, 0.0];
    qc.SetStateVector([9.0, 8.0, 7.0, 6.0, 5.0, 4.0, 3.0, 2.0]);
    assert qc.StateVector() == [9.0, 8.0, 7.0, 6.0, 5.0, 4.0, 3.0, 2.0];
    assert qc.x == [9.0, 8.0, 7.0] && qc.v == [6.0, 5.0, 4.0];
    assert qc.yaw == 3.0 && qc.yawRate == 2.0;

    var qd := new Quadcopter([1.0, 2.0, 3.0], solve);
    assert qd.StateVectorDot() == [0.0, 0.0, 0.0, 0.0, 0.0, 0.0, 0.0, 0.0];
    qd.SetStateVectorDot([9.0, 8.0, 7.0, 6.0, 5.0, 4.0, 3.0, 2.0]);
    assert qd.StateVectorDot() == [9.0, 8.0, 7.0, 6.0, 5.0, 4.0, 3.0, 2.0];
    assert qd.a == [6.0, 5.0, 4.0] && qd.yawAcc == 2.0;
  }
}
