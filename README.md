# scaling-potato: quadcopter dynamics and PID controller in Dafny

This project models the two pieces of simulation logic in the repository:

- **`Quadcopter`** (`scaling_potato/quadcopter.py`). This is the yaw-angle vehicle. It has position `x`, velocity `v` and acceleration `a` (3-vectors), `yaw` with `yaw_rate` and `yaw_acc`, and the time of the last step, which starts unset.
  - The `state_vector` property flattens `[x, v, yaw, yaw_rate]` to 8 entries. Its setter wraps the yaw with Python's floored `% (2 * pi)`.
  - The `state_vector_dot` property flattens `[v, a, yaw_rate, yaw_acc]`. Its setter does not wrap. It shares `v` and `yaw_rate` with the state vector.
  - `rhs_equation(t, y)` loads `y` as the state and returns the derivative vector.
  - `step(time)` seeds scipy's `dopri5` integrator on the first call. On every later call it integrates to `time` and takes the integrator's time and state.
- **`PIDControl`** (`scaling_potato/pid_control.py`). This is a vector PID controller. The first `step(time, value)` sizes it to `value`. Later steps integrate the error with the trapezoidal rule, take a finite-difference derivative, and apply `k_p*error + k_i*integral + k_d*derivative`.

Files:
- `dynamics.dfy` (module `Dynamics`). `QuadState` holds the vehicle's fields as a value. The pure functions `Pack`/`Unpack` (state vector), `PackDot`/`UnpackDot` (derivative vector) and `Derivative` (`rhs_equation`) work on it, and the round-trip lemmas are stated over them.
  - The `Quadcopter` class holds the same fields. Each of its methods is specified by one of these functions applied to `Model()`.
  - The `Ode` class is scipy's `ode` object. It keeps its own time and state.
  - The integrator's numerical method is an oracle. A `Solver` is the function value `solve(f, t0, y0, t1)`, which returns the time reached and the state there. The only thing known about it is that the state keeps its length.
  - `Quadcopter.Step` hands the solver the right-hand side `RhsOf(Model())`, built from the state at the start of the step.
  - `AccessorScenarios` restates the accessor unit tests (test/python/test_quadcopter.py:15-33) as assertions proved from the class contracts alone.
- `control.dfy` (module `Control`). `PidState` holds the controller's fields as a value and `StepOf` is `step` on it. `Run` feeds a sequence of samples into `StepOf`. `Trapezoid` is an independent definition of the trapezoidal rule to compare the integral against. The `PidControl` class has a `Step` method specified by `StepOf`.
- `vectors.dfy` has the element-wise numpy arithmetic. `wrappers.dfy` has `Option`, used for attributes that start as `None`.

The constant `2 * pi` is `Dynamics.TwoPi`. It is written out exactly as the IEEE-754 double that Python computes, so `yaw % (2 * pi)` is modelled as `y - TwoPi * (y / TwoPi).Floor` over the reals.

Behaviour of the code that the model keeps as written:
- The first PID step sets `output` to zeros (pid_control.py:21).
- The first previous error is `value - command` (pid_control.py:24); later steps use `command - value` (pid_control.py:27). `SecondStepIgnoresCommand` shows the consequence: the command cancels out of the integral on the second step.
- The code checks neither vector lengths nor `dt`. The model states as preconditions what the code relies on:
  - vector lengths (at least 8 entries for the setters, one fixed dimension for the PID);
  - `dt != 0` on a later PID step.

## Model

| member | source | states |
|---|---|---|
| `Dynamics.WrapYaw` | scaling_potato/quadcopter.py:40 | the wrapped yaw lies in [0, 2π), equals the input when the input is already there, and differs from the input by a whole number of turns |
| `Dynamics.WrapYawUnique` | scaling_potato/quadcopter.py:40 | any angle in [0, 2π) that differs from `y` by whole turns is the wrapped value of `y` (an independent characterisation of the floored remainder) |
| `Dynamics.WrapYawPeriodic` | scaling_potato/quadcopter.py:40 | adding whole turns to an angle does not change its wrapped value |
| `Dynamics.Initial` | scaling_potato/quadcopter.py:15-23 | the constructed vehicle has 3-vector position, velocity and acceleration and no recorded time |
| `Dynamics.Pack` | scaling_potato/quadcopter.py:28-34 | the state vector has 8 entries |
| `Dynamics.Unpack` | scaling_potato/quadcopter.py:36-41 | setting the state vector takes `x = y[0..3]`, `v = y[3..6]`, `yaw_rate = y[7]` and `yaw = y[6]` wrapped into [0, 2π); `a`, `yaw_acc` and the time are unchanged |
| `Dynamics.PackDot` | scaling_potato/quadcopter.py:43-52 | the derivative vector has 8 entries |
| `Dynamics.UnpackDot` | scaling_potato/quadcopter.py:54-59 | setting the derivative vector takes `v`, `a`, `yaw_rate`, `yaw_acc` from it with no wrap; `x`, `yaw` and the time are unchanged |
| `Dynamics.InitialStateVector` | scaling_potato/quadcopter.py:15-21 | after construction the state vector is `[init_x, 0, 0, 0, 0, 0]` and the derivative vector is all zeros |
| `Dynamics.PackUnpack` | scaling_potato/quadcopter.py:28-41 | reading the state vector after setting it to `y` gives `y` with entry 6 wrapped, so it gives `y` itself exactly when `0 <= y[6] < 2π` (both directions) |
| `Dynamics.UnpackPack` | scaling_potato/quadcopter.py:28-41 | setting the state vector to the vehicle's own state vector changes nothing when its yaw is in [0, 2π) |
| `Dynamics.PackDotUnpackDot` | scaling_potato/quadcopter.py:43-59 | the derivative vector's getter and setter are exact inverses of each other in both orders |
| `Dynamics.UnpackDotAliasesState` | scaling_potato/quadcopter.py:54-59 | setting the derivative vector changes the velocity and yaw-rate entries of the state vector and keeps position and yaw |
| `Dynamics.Derivative` | scaling_potato/quadcopter.py:70-72 | `rhs_equation(t, y)` returns `[y[3], y[4], y[5], a[0], a[1], a[2], y[7], yaw_acc]`: the derivative vector of the state after loading `y` |
| `Dynamics.RhsOf` | scaling_potato/quadcopter.py:26 | the bound `rhs_equation` handed to the integrator (evaluated during `integrate`, quadcopter.py:66) gives, for every trial `y`, the derivative built from the `a` and `yaw_acc` of the state the step started in |
| `Dynamics.DerivativeIndependence` | scaling_potato/quadcopter.py:70-72 | the right-hand side does not depend on `t`, `y[0..3]` or `y[6]`; of the vehicle it reads only `a` and `yaw_acc` |
| `Dynamics.DerivativeIgnoresOverwrites` | scaling_potato/quadcopter.py:66-72 | the state overwrites that earlier right-hand-side evaluations make during one integration do not change later evaluations |
| `Dynamics.Ode.constructor` | scaling_potato/quadcopter.py:26 | the integrator starts with the given solver and an empty state |
| `Dynamics.Ode.SetInitialValue` | scaling_potato/quadcopter.py:63 | seeding stores the given state and time |
| `Dynamics.Ode.Integrate` | scaling_potato/quadcopter.py:66-67 | integrating moves the integrator to the solver's answer from its own time and state, keeping the state's length |
| `Dynamics.Quadcopter.constructor` | scaling_potato/quadcopter.py:15-26 | the vehicle starts in `Initial(init_x)` with a fresh integrator that has no initial value |
| `Dynamics.Quadcopter.StateVector` | scaling_potato/quadcopter.py:28-34 | the `state_vector` property is `Pack` of the current fields |
| `Dynamics.Quadcopter.SetStateVector` | scaling_potato/quadcopter.py:36-41 | the new fields are `Unpack` of the old ones, so the yaw lies in [0, 2π) |
| `Dynamics.Quadcopter.StateVectorDot` | scaling_potato/quadcopter.py:43-52 | the `state_vector_dot` property is `PackDot` of the current fields |
| `Dynamics.Quadcopter.SetStateVectorDot` | scaling_potato/quadcopter.py:54-59 | the new fields are `UnpackDot` of the old ones |
| `Dynamics.Quadcopter.RhsEquation` | scaling_potato/quadcopter.py:70-72 | the call overwrites the state with `y` (yaw wrapped) and returns `[y[3..6], a, y[7], yaw_acc]` of the state before the call |
| `Dynamics.Quadcopter.Step` | scaling_potato/quadcopter.py:61-68 | first call: seeds the integrator with the state vector at `t`, records `t`, and leaves every other field alone. Later calls: the vehicle takes the integrator's time and the unpacked integrator state, the integrated right-hand side uses the acceleration and yaw acceleration from the start of the step, and the yaw lies in [0, 2π) |
| `Control.Initial` | scaling_potato/pid_control.py:5-14 | a new controller has no command, previous error or time, and empty output, integral and derivative |
| `Control.StepOf` | scaling_potato/pid_control.py:16-35 | every step leaves the controller started, with all vectors of the dimension of `value` and the time recorded. The gains never change, and a command that was set is kept |
| `Control.FirstStepFields` | scaling_potato/pid_control.py:17-25 | the first step zeroes output, integral and derivative, sets an unset command to zeros and keeps a set one, and stores `value - command` as the previous error and the time |
| `Control.SteadyStepFields` | scaling_potato/pid_control.py:26-35 | a later step computes the error `command - value`. The integral grows by `(prev_error + error)/2 * dt`. The derivative times `dt` is `error - prev_error`. The output is `error*k_p + integral*k_i + derivative*k_d` with the new integral and derivative, and the error becomes the previous error |
| `Control.ZeroGainsStep` | scaling_potato/pid_control.py:21-35 | with all gains zero the output after any step is the zero vector |
| `Control.SecondStepIgnoresCommand` | scaling_potato/pid_control.py:24-31 | because the first previous error is `value - command`, the integral after the second step is `(v0 - v1)/2 * (t1 - t0)`, whatever the command |
| `Control.Run` | scaling_potato/pid_control.py:16-35 | a sequence of steps keeps the gains and a set command. Every vector keeps the dimension of the first measurement, and the time is that of the last sample |
| `Control.ZeroGainsRun` | scaling_potato/pid_control.py:21-35 | with all gains zero the output is the zero vector after any non-empty sequence of steps |
| `Control.RunIntegral` | scaling_potato/pid_control.py:26-31 | once started, the integral after a run is the integral before it plus the trapezoidal rule over the recorded time and previous error followed by each sample's time and error |
| `Control.PidControl.constructor` | scaling_potato/pid_control.py:5-14 | the fields of a new controller are `Initial(k_p, k_i, k_d)` |
| `Control.PidControl.Step` | scaling_potato/pid_control.py:16-35 | the new fields are `StepOf` of the old ones. Gains and a set command are unchanged, the time is recorded, and the vectors have the dimension of `value` |

## Left out

- The dopri5 Runge–Kutta method itself. `Solver` is an oracle, so the constant-acceleration and yaw-simulation checks of the tests (test/python/test_quadcopter.py:35-49) are not stated. They depend on the numerical answer.
- Floating point. All arithmetic is over exact reals, including the floored remainder by `2 * pi`. IEEE rounding, NaN and infinities are not modelled.
- `Dynamics.WrapYaw`: the range [0, 2π) holds over the reals only. Python's float `%` rounds, so a tiny negative yaw such as `-1e-20 % (2 * pi)` gives exactly `2 * pi`. The same applies to the yaw range stated by `Unpack`, `SetStateVector` and `Step`.
- numpy shapes and broadcasting:
  - `reshape((3, 1))` column vectors are plain sequences;
  - the integer zeros of the constructor are real zeros;
  - a command or measurement whose length differs from the controller's dimension is excluded by `CanStep` rather than broadcast.
- Division by a zero `dt` in a later PID step is excluded by `CanStep` (`t != time`). The source does not check it.
- `Control.StepOf`: the gains are modelled as real scalars. numpy would also accept per-axis gain arrays.
- `Dynamics.Ode.constructor`: scipy's integrator time before `set_initial_value` is not stated. The vehicle never reads it before seeding.
- `Dynamics.Quadcopter.Step`: the intermediate state overwrites made by `rhs_equation` while the solver runs are not modelled one by one. The step overwrites those fields afterwards, and `DerivativeIgnoresOverwrites` shows they do not affect the right-hand side.
- Callers assigning attributes directly (`qc.a = ...`, `pid.command = ...`) are field assignments in Dafny. The invariants assume such assignments keep 3-vectors and the controller's dimension.
- Quaternion kinematics, frame transforms, `v_b`/`a_b`, roll/pitch, `v_control` and `omega_control` are not part of this model. scaling_potato/world.py calls them, but the yaw-angle quadcopter.py does not define them.
- scaling_potato/world.py and scaling_potato/panda_app.py (rendering, lights, text, key handling), the OpenCV camera code under scaling_potato/scaling_potato_c/cpp_code, and setup.py (packaging) are user interface, I/O and build tooling.
