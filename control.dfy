/**
 * The vector PID controller of scaling_potato/pid_control.py.  It is sized
 * lazily by the first measurement it is stepped with; later steps integrate
 * the error by the trapezoidal rule and differentiate it by a finite
 * difference over the elapsed time.
 *
 * The first step stores `value - command` as the previous error while every
 * later step computes `command - value`; the model keeps that difference in
 * sign (see SecondStepIgnoresCommand).
 */
module Control {
  import opened Wrappers
  import opened Vectors

  /** The fields of a `PidControl`, as one value. */
  datatype PidState = PidState(
    command: Option<seq<real>>,
    output: seq<real>,
    integral: seq<real>,
    derivative: seq<real>,
    prevError: Option<seq<real>>,
    time: Option<real>,
    kP: real,
    kI: real,
    kD: real)

  /** Whether the controller has taken its first step. */
  predicate Started(s: PidState) {
    s.prevError.Some?
  }

  /** Every vector of a started controller has dimension `n`. */
  predicate HasDim(s: PidState, n: nat) {
    && s.command.Some? && |s.command.value| == n
    && s.prevError.Some? && |s.prevError.value| == n
    && |s.output| == n && |s.integral| == n && |s.derivative| == n
  }

  /**
   * The controller's invariant: a time is recorded exactly when a previous
   * error is, and then every vector has the dimension of that error.
   */
  predicate Valid(s: PidState) {
    && (s.prevError.Some? <==> s.time.Some?)
    && (s.prevError.Some? ==> HasDim(s, |s.prevError.value|))
  }

  /** `PIDControl(k_p, k_i, k_d)`. */
  function Initial(kP: real, kI: real, kD: real): (s: PidState)
    ensures Valid(s) && !Started(s) && s.command.None?
    ensures s.output == [] && s.integral == [] && s.derivative == []
  {
    PidState(None, [], [], [], None, None, kP, kI, kD)
  }

  /**
   * When `step(t, value)` is defined: a command set before the first step
   * has the dimension of `value`; a later step keeps the dimension and comes
   * at a time other than the recorded one, since it divides by the elapsed
   * time.
   */
  predicate CanStep(s: PidState, t: real, value: seq<real>) {
    && Valid(s)
    && if s.prevError.None? then s.command.None? || |s.command.value| == |value|
       else |value| == |s.prevError.value| && t != s.time.value
  }

  /** `step(t, value)` on the controller's fields. */
  function StepOf(s: PidState, t: real, value: seq<real>): (s': PidState)
    requires CanStep(s, t, value)
    ensures Valid(s') && Started(s') && HasDim(s', |value|) && s'.time == Some(t)
    ensures s'.kP == s.kP && s'.kI == s.kI && s'.kD == s.kD
    ensures s.command.Some? ==> s'.command == s.command
  {
    if s.prevError.None? then
      var n := |value|;
      var command := if s.command.None? then Zeros(n) else s.command.value;
      s.(command := Some(command),
         output := Zeros(n),
         integral := Zeros(n),
         derivative := Zeros(n),
         prevError := Some(Sub(value, command)),
         time := Some(t))
    else
      var prev := s.prevError.value;
      var error := Sub(s.command.value, value);
      var dt := t - s.time.value;
      var integral := Add(s.integral, Scale(Div(Add(prev, error), 2.0), dt));
      var derivative := Div(Sub(error, prev), dt);
      s.(time := Some(t),
         integral := integral,
         derivative := derivative,
         prevError := Some(error),
         output := Add(Add(Scale(error, s.kP), Scale(integral, s.kI)), Scale(derivative, s.kD)))
  }

  /**
   * The first step sizes the controller by `value`: output, integral and
   * derivative become zero, an unset command becomes zero and a set one is
   * kept, the previous error is `value - command`, and the time is recorded.
   */
  lemma FirstStepFields(s: PidState, t: real, value: seq<real>)
    requires CanStep(s, t, value) && !Started(s)
    ensures var s' := StepOf(s, t, value);
      && s'.command == (if s.command.None? then Some(Zeros(|value|)) else s.command)
      && s'.output == Zeros(|value|) && s'.integral == Zeros(|value|) && s'.derivative == Zeros(|value|)
      && s'.prevError == Some(Sub(value, s'.command.value))
      && s'.time == Some(t)
  {
  }

  /**
   * A later step with `dt = t - time`: the error is `command - value`, the
   * integral grows by the trapezoid of the previous and the new error over
   * `dt`, the derivative is their difference over `dt`, the output is the
   * PID law on the new error, integral and derivative, and the new error
   * becomes the previous one.
   */
  lemma SteadyStepFields(s: PidState, t: real, value: seq<real>)
    requires CanStep(s, t, value) && Started(s)
    ensures var s' := StepOf(s, t, value);
      var dt := t - s.time.value;
      var prev := s.prevError.value;
      var error := Sub(s.command.value, value);
      && s'.command == s.command && s'.time == Some(t)
      && s'.prevError == Some(error)
      && (forall i :: 0 <= i < |value| ==> error[i] == s.command.value[i] - value[i])
      && (forall i :: 0 <= i < |value| ==>
            && s'.integral[i] == s.integral[i] + (prev[i] + error[i]) / 2.0 * dt
            && s'.derivative[i] * dt == error[i] - prev[i]
            && s'.output[i] == error[i] * s.kP + s'.integral[i] * s.kI + s'.derivative[i] * s.kD)
  {
  }

  /** With all gains zero the output is the zero vector after every step. */
  lemma ZeroGainsStep(s: PidState, t: real, value: seq<real>)
    requires CanStep(s, t, value)
    requires s.kP == 0.0 && s.kI == 0.0 && s.kD == 0.0
    ensures StepOf(s, t, value).output == Zeros(|value|)
  {
  }

  /**
   * The first step feeds `value - command` in as the previous error, so on
   * the second step the command cancels from the integral: it grows by half
   * the change in the measurement times the elapsed time, whatever the
   * command.
   */
  lemma SecondStepIgnoresCommand(s: PidState, t0: real, v0: seq<real>, t1: real, v1: seq<real>)
    requires !Started(s) && CanStep(s, t0, v0)
    requires CanStep(StepOf(s, t0, v0), t1, v1)
    ensures var s2 := StepOf(StepOf(s, t0, v0), t1, v1);
      forall i :: 0 <= i < |v0| ==> s2.integral[i] == (v0[i] - v1[i]) / 2.0 * (t1 - t0)
  {
  }

  /** One measurement handed to `step`. */
  datatype Sample = Sample(time: real, value: seq<real>)

  /** Whether the samples can be fed to `step` one after another. */
  predicate CanRun(s: PidState, samples: seq<Sample>)
    decreases |samples|
  {
    || |samples| == 0
    || (&& CanStep(s, samples[0].time, samples[0].value)
        && CanRun(StepOf(s, samples[0].time, samples[0].value), samples[1..]))
  }

  /** The controller after stepping through the samples in order. */
  function Run(s: PidState, samples: seq<Sample>): (r: PidState)
    requires CanRun(s, samples)
    requires Valid(s)
    ensures Valid(r)
    ensures r.kP == s.kP && r.kI == s.kI && r.kD == s.kD
    ensures s.command.Some? ==> r.command == s.command
    ensures Started(s) ==> HasDim(r, |s.prevError.value|)
    ensures |samples| > 0 ==>
      && HasDim(r, |samples[0].value|)
      && r.time == Some(samples[|samples| - 1].time)
    decreases |samples|
  {
    if |samples| == 0 then s
    else Run(StepOf(s, samples[0].time, samples[0].value), samples[1..])
  }

  /** A controller with zero gains outputs the zero vector after any non-empty run. */
  lemma {:induction false} ZeroGainsRun(s: PidState, samples: seq<Sample>)
    requires Valid(s) && CanRun(s, samples) && |samples| > 0
    requires s.kP == 0.0 && s.kI == 0.0 && s.kD == 0.0
    ensures IsZero(Run(s, samples).output)
    decreases |samples|
  {
    var s1 := StepOf(s, samples[0].time, samples[0].value);
    if |samples| == 1 {
      ZeroGainsStep(s, samples[0].time, samples[0].value);
      assert Run(s1, samples[1..]) == s1;
    } else {
      ZeroGainsRun(s1, samples[1..]);
    }
  }

  /**
   * The trapezoidal rule over the points `(t0, y0)`, `(ts[0], ys[0])`,
   * `(ts[1], ys[1])`, ...: the sum of `(y + y') / 2 * (t' - t)` over
   * consecutive points.
   */
  function Trapezoid(t0: real, y0: real, ts: seq<real>, ys: seq<real>): real
    requires |ts| == |ys|
    decreases |ts|
  {
    if |ts| == 0 then 0.0
    else (y0 + ys[0]) / 2.0 * (ts[0] - t0) + Trapezoid(ts[0], ys[0], ts[1..], ys[1..])
  }

  /** The time of each sample, in order. */
  function Times(samples: seq<Sample>): (r: seq<real>)
    ensures |r| == |samples|
    decreases |samples|
  {
    if |samples| == 0 then [] else [samples[0].time] + Times(samples[1..])
  }

  /** Every sample has dimension `n`. */
  predicate AllDim(samples: seq<Sample>, n: nat) {
    forall k :: 0 <= k < |samples| ==> |samples[k].value| == n
  }

  /** Component `i` of the error `command - value` of each sample. */
  function Errors(command: seq<real>, samples: seq<Sample>, i: nat): (r: seq<real>)
    requires i < |command| && AllDim(samples, |command|)
    ensures |r| == |samples|
    decreases |samples|
  {
    if |samples| == 0 then []
    else [command[i] - samples[0].value[i]] + Errors(command, samples[1..], i)
  }

  /** `Times` at its first sample. */
  lemma TimesTail(samples: seq<Sample>)
    requires |samples| > 0
    ensures Times(samples)[0] == samples[0].time && Times(samples)[1..] == Times(samples[1..])
  {
  }

  /** `Errors` at its first sample. */
  lemma ErrorsTail(command: seq<real>, samples: seq<Sample>, i: nat)
    requires |samples| > 0 && i < |command| && AllDim(samples, |command|)
    ensures AllDim(samples[1..], |command|)
    ensures Errors(command, samples, i)[0] == command[i] - samples[0].value[i]
    ensures Errors(command, samples, i)[1..] == Errors(command, samples[1..], i)
  {
    AllDimTail(samples, |command|);
  }

  /** Component `i` of the integral after a later step. */
  lemma StepIntegralAt(s: PidState, t: real, value: seq<real>, i: nat)
    requires CanStep(s, t, value) && Started(s) && i < |value|
    ensures StepOf(s, t, value).integral[i] ==
      s.integral[i] + (s.prevError.value[i] + (s.command.value[i] - value[i])) / 2.0 * (t - s.time.value)
  {
  }

  /** Dropping the first sample keeps every dimension. */
  lemma AllDimTail(samples: seq<Sample>, n: nat)
    requires |samples| > 0 && AllDim(samples, n)
    ensures AllDim(samples[1..], n)
  {
  }

  /**
   * Once started, the integral after a run is the integral before it plus
   * the trapezoidal rule over the recorded time and previous error followed
   * by each sample's time and error.
   */
  lemma {:induction false} RunIntegral(s: PidState, samples: seq<Sample>, i: nat)
    requires Valid(s) && Started(s) && CanRun(s, samples)
    requires AllDim(samples, |s.integral|) && i < |s.integral|
    ensures Run(s, samples).integral[i] ==
      s.integral[i] + Trapezoid(s.time.value, s.prevError.value[i],
                                Times(samples), Errors(s.command.value, samples, i))
    decreases |samples|
  {
    if |samples| > 0 {
      var t1, v1 := samples[0].time, samples[0].value;
      var s1 := StepOf(s, t1, v1);
      var rest := samples[1..];
      var c := s.command.value;
      TimesTail(samples);
      ErrorsTail(c, samples, i);
      RunIntegral(s1, rest, i);
      StepIntegralAt(s, t1, v1, i);
      assert Run(s, samples) == Run(s1, rest);
      assert s1.prevError.value[i] == c[i] - v1[i] && s1.time.value == t1 && s1.command.value == c;
    }
  }

  /** `PIDControl`: the controller, updated in place by `step`. */
  class PidControl {
    var command: Option<seq<real>>
    var output: seq<real>
    var integral: seq<real>
    var derivative: seq<real>
    var prevError: Option<seq<real>>
    var time: Option<real>
    var kP: real
    var kI: real
    var kD: real

    function Model(): PidState
      reads this
    {
      PidState(command, output, integral, derivative, prevError, time, kP, kI, kD)
    }

    /** `PIDControl(k_p, k_i, k_d)`. */
    constructor (kP: real, kI: real, kD: real)
      ensures Model() == Initial(kP, kI, kD)
    {
      command := None;
      output := [];
      integral := [];
      derivative := [];
      prevError := None;
      time := None;
      this.kP, this.kI, this.kD := kP, kI, kD;
    }

    /**
     * `step(t, value)`.  The first call sizes the controller by `value`,
     * zeroes output, integral and derivative, sets an unset command to zero,
     * and stores `value - command` as the previous error; a later call
     * applies the trapezoidal integral, the finite-difference derivative and
     * the PID law to the error `command - value`.
     */
    method Step(t: real, value: seq<real>)
      requires CanStep(Model(), t, value)
      modifies this
      ensures Model() == StepOf(old(Model()), t, value)
      ensures kP == old(kP) && kI == old(kI) && kD == old(kD) && time == Some(t)
      ensures old(command).Some? ==> command == old(command)
      ensures prevError.Some? && |prevError.value| == |integral| == |output| == |value|
    {
      if prevError.None? {
        var length := |value|;
        if command.None? {
          command := Some(Zeros(length));
        }
        output := Zeros(length);
        integral := Zeros(length);
        derivative := Zeros(length);
        prevError := Some(Sub(value, command.value));
        time := Some(t);
      } else {
        var error := Sub(command.value, value);
        var dt := t - time.value;
        time := Some(t);
        integral := Add(integral, Scale(Div(Add(prevError.value, error), 2.0), dt));
        derivative := Div(Sub(error, prevError.value), dt);
        prevError := Some(error);
        output := Add(Add(Scale(error, kP), Scale(integral, kI)), Scale(derivative, kD));
      }
    }
  }
}
