/** The PID controller that drives one GPU fan.

    A controller is an immutable record: fixed configuration, a target
    (setpoint) and three pieces of mutable state, the stored output `u`, the
    discounted error sum `eTotal` and the previous error `ePrev`. One update
    turns an observation into a new output clipped to `[uMin, uMax]`, and
    commits new state only when that output differs from the stored one (the
    anti-windup freeze). Numbers are exact reals, not IEEE doubles. */
module Pid {
  import opened Options

  /** Configuration fixed at construction; no operation changes it. */
  datatype Config = Config(
    uMin: real,
    uMax: real,
    uStart: real,
    reverse: bool,
    kp: real,
    ki: real,
    kd: real,
    gamma: real)

  /** The controller's memory. */
  datatype State = State(u: real, eTotal: real, ePrev: real)

  datatype Controller = Controller(cfg: Config, xTarget: real, state: State)

  /** The controller after one update, and the value that update returned. */
  datatype Step = Step(next: Controller, u: real)

  /** The controller after a sequence of updates, and every value returned. */
  datatype Trace = Trace(final: Controller, outputs: seq<real>)

  // Default gains of the constructor.
  const DefaultKp: real := 0.5
  const DefaultKi: real := 0.45
  const DefaultKd: real := 0.6
  const DefaultGamma: real := 0.95

  function Min(a: real, b: real): real { if a <= b then a else b }

  function Max(a: real, b: real): real { if a >= b then a else b }

  /** `max(lo, min(hi, v))`, written in that order, so that when `hi < lo`
      the result is `lo` whatever `v` is. */
  function Clamp(lo: real, hi: real, v: real): (r: real)
    ensures lo <= hi ==> lo <= r <= hi
    ensures lo <= v <= hi ==> r == v
    ensures lo <= hi && v < lo ==> r == lo
    ensures lo <= hi && hi < v ==> r == hi
    ensures hi < lo ==> r == lo
  {
    Max(lo, Min(hi, v))
  }

  /** The start output: the one given, or the midpoint of the bounds. */
  function StartValue(uMin: real, uMax: real, uStart: Option<real>): (r: real)
    ensures uStart.Some? ==> r == uStart.value
    ensures uStart.None? ==> r - uMin == uMax - r
    ensures uStart.None? && uMin <= uMax ==> uMin <= r <= uMax
  {
    match uStart
    case Some(v) => v
    case None => (uMin + uMax) / 2.0
  }

  /** The state every controller starts from and returns to on a reset. */
  function Initial(cfg: Config): State
  {
    State(cfg.uStart, 0.0, 0.0)
  }

  /** Construction. Assigning the target during construction resets the
      state, and the constructor resets it once more; both leave it at
      `Initial(cfg)`. */
  function New(xTarget: real, uMin: real, uMax: real, uStart: Option<real>, reverse: bool,
               kp: real, ki: real, kd: real, gamma: real): (c: Controller)
    ensures c.cfg.uMin == uMin && c.cfg.uMax == uMax && c.cfg.reverse == reverse
    ensures c.cfg.kp == kp && c.cfg.ki == ki && c.cfg.kd == kd && c.cfg.gamma == gamma
    ensures uStart.Some? ==> c.cfg.uStart == uStart.value
    ensures uStart.None? ==> c.cfg.uStart - uMin == uMax - c.cfg.uStart
    ensures c.xTarget == xTarget
    ensures c.state.u == c.cfg.uStart && c.state.eTotal == 0.0 && c.state.ePrev == 0.0
  {
    var cfg := Config(uMin, uMax, StartValue(uMin, uMax, uStart), reverse, kp, ki, kd, gamma);
    ResetState(SetTarget(Controller(cfg, xTarget, Initial(cfg)), xTarget))
  }

  /** Construction with every optional argument left at its default. */
  function NewWithDefaults(xTarget: real, uMin: real, uMax: real): (c: Controller)
    ensures c.xTarget == xTarget
    ensures c.cfg.uMin == uMin && c.cfg.uMax == uMax
    ensures c.cfg.uStart == (uMin + uMax) / 2.0
    ensures !c.cfg.reverse
    ensures c.cfg.kp == 0.5 && c.cfg.ki == 0.45 && c.cfg.kd == 0.6 && c.cfg.gamma == 0.95
    ensures c.state.u == (uMin + uMax) / 2.0 && c.state.eTotal == 0.0 && c.state.ePrev == 0.0
  {
    New(xTarget, uMin, uMax, None, false, DefaultKp, DefaultKi, DefaultKd, DefaultGamma)
  }

  /** Forget all history: output back to the start value, both error
      memories back to zero. */
  function ResetState(c: Controller): (r: Controller)
    ensures r.cfg == c.cfg && r.xTarget == c.xTarget
    ensures r.state.u == c.cfg.uStart && r.state.eTotal == 0.0 && r.state.ePrev == 0.0
  {
    c.(state := Initial(c.cfg))
  }

  /** Assigning the target stores it and resets the state. */
  function SetTarget(c: Controller, xTargetNew: real): (r: Controller)
    ensures r.xTarget == xTargetNew
    ensures r.cfg == c.cfg
    ensures r.state.u == c.cfg.uStart && r.state.eTotal == 0.0 && r.state.ePrev == 0.0
  {
    ResetState(c.(xTarget := xTargetNew))
  }

  /** The error fed to the control law: observation minus target, negated
      when the controller is reversed. */
  function Error(c: Controller, xObs: real): (e: real)
    // zero exactly on target; same size as the deviation from the target
    ensures e == 0.0 <==> xObs == c.xTarget
    ensures e == xObs - c.xTarget || e == c.xTarget - xObs
    // positive exactly when the observation lies on the side that should
    // raise the output: above the target, or below it when reversed
    ensures e > 0.0 <==> (if c.cfg.reverse then xObs < c.xTarget else xObs > c.xTarget)
  {
    var e := xObs - c.xTarget;
    if c.cfg.reverse then -e else e
  }

  /** The integral term: the error plus the discounted error sum. */
  function Integral(c: Controller, e: real): real
  {
    e + c.cfg.gamma * c.state.eTotal
  }

  /** The unclipped control signal `Kp*p + Ki*i + Kd*d`, where the
      proportional term is the error itself and the derivative term is the
      change since the previous committed error. */
  function Raw(c: Controller, e: real): real
  {
    c.cfg.kp * e + c.cfg.ki * Integral(c, e) + c.cfg.kd * (e - c.state.ePrev)
  }

  /** The output an update proposes for error `e`. */
  function Candidate(c: Controller, e: real): real
  {
    Clamp(c.cfg.uMin, c.cfg.uMax, Raw(c, e))
  }

  /** The control law once the error is known: the update body after the
      sign handling. */
  function Law(c: Controller, e: real): (s: Step)
    ensures s.u == Candidate(c, e)
    ensures s.u == s.next.state.u
    ensures s.next.cfg == c.cfg && s.next.xTarget == c.xTarget
    ensures s.next == c <==> Candidate(c, e) == c.state.u
    ensures Candidate(c, e) != c.state.u ==> s.next.state == State(Candidate(c, e), Integral(c, e), e)
  {
    var i := Integral(c, e);
    var u := Candidate(c, e);
    var next := if c.state.u != u then c.(state := State(u, i, e)) else c;
    Step(next, next.state.u)
  }

  /** One call of the controller on observation `xObs`. */
  function Update(c: Controller, xObs: real): (s: Step)
    // the returned value is always the freshly clipped candidate ...
    ensures s.u == Clamp(c.cfg.uMin, c.cfg.uMax, Raw(c, Error(c, xObs)))
    ensures c.cfg.uMin <= c.cfg.uMax ==> c.cfg.uMin <= s.u <= c.cfg.uMax
    // ... and is what the controller stores afterwards
    ensures s.next.state.u == s.u
    // configuration and target never change
    ensures s.next.cfg == c.cfg && s.next.xTarget == c.xTarget
    // freeze: nothing changes exactly when the candidate equals the stored output
    ensures s.next == c <==> s.u == c.state.u
    // commit: new output, error sum discounted and extended, previous error replaced
    ensures s.u != c.state.u ==>
              s.next.state.eTotal == Error(c, xObs) + c.cfg.gamma * c.state.eTotal &&
              s.next.state.ePrev == Error(c, xObs)
  {
    Law(c, Error(c, xObs))
  }

  /** Successive calls of the controller on the observations `xs`. */
  function Run(c: Controller, xs: seq<real>): (t: Trace)
    ensures |t.outputs| == |xs|
    ensures t.final.cfg == c.cfg && t.final.xTarget == c.xTarget
    decreases |xs|
  {
    if |xs| == 0 then Trace(c, [])
    else
      var s := Update(c, xs[0]);
      var rest := Run(s.next, xs[1..]);
      Trace(rest.final, [s.u] + rest.outputs)
  }

  /** The same controller with the direction flag flipped. */
  function Flip(c: Controller): Controller
  {
    c.(cfg := c.cfg.(reverse := !c.cfg.reverse))
  }

  /** Observations reflected about the target `t`. */
  function Mirror(xs: seq<real>, t: real): (ys: seq<real>)
    ensures |ys| == |xs|
    ensures forall k :: 0 <= k < |xs| ==> ys[k] - t == t - xs[k]
  {
    seq(|xs|, k requires 0 <= k < |xs| => 2.0 * t - xs[k])
  }

  /** Observations that repeat one value `n` times. */
  function Repeat(x: real, n: nat): (xs: seq<real>)
    ensures |xs| == n
    ensures forall k :: 0 <= k < n ==> xs[k] == x
  {
    seq(n, _ => x)
  }

  // ---------------------------------------------------------------- lemmas

  /** The control law does not look at the direction flag. */
  lemma LawIgnoresDirection(c: Controller, e: real)
    ensures Law(Flip(c), e).u == Law(c, e).u
    ensures Law(Flip(c), e).next == Flip(Law(c, e).next)
  {
  }

  /** A reversed controller computes, with the same state, what the
      unreversed one computes when fed the negated error. */
  lemma ReverseNegatesError(c: Controller, xObs: real)
    requires c.cfg.reverse
    ensures Error(c, xObs) == -(xObs - c.xTarget)
    ensures Update(c, xObs).u == Law(Flip(c), -(xObs - c.xTarget)).u
    ensures Update(c, xObs).next == Flip(Law(Flip(c), -(xObs - c.xTarget)).next)
  {
  }

  /** Flipping the direction flag and reflecting the observation about the
      target gives the same output and the same new state. */
  lemma UpdateMirror(c: Controller, xObs: real)
    ensures Update(Flip(c), 2.0 * c.xTarget - xObs).u == Update(c, xObs).u
    ensures Update(Flip(c), 2.0 * c.xTarget - xObs).next == Flip(Update(c, xObs).next)
  {
    assert Error(Flip(c), 2.0 * c.xTarget - xObs) == Error(c, xObs);
    LawIgnoresDirection(c, Error(c, xObs));
  }

  /** Over any sequence of observations, the flipped controller fed the
      reflected observations returns exactly the same outputs. */
  lemma {:induction false} RunMirror(c: Controller, xs: seq<real>)
    ensures Run(Flip(c), Mirror(xs, c.xTarget)).outputs == Run(c, xs).outputs
    ensures Run(Flip(c), Mirror(xs, c.xTarget)).final == Flip(Run(c, xs).final)
    decreases |xs|
  {
    if |xs| > 0 {
      var s := Update(c, xs[0]);
      UpdateMirror(c, xs[0]);
      var ms := Mirror(xs, c.xTarget);
      assert ms[0] == 2.0 * c.xTarget - xs[0];
      assert ms[1..] == Mirror(xs[1..], s.next.xTarget);
      RunMirror(s.next, xs[1..]);
    }
  }

  /** Every value returned over any sequence of updates lies in the bounds,
      from any prior state, including a start value outside them; after at
      least one update the stored output lies in the bounds too. */
  lemma {:induction false} RunOutputsInRange(c: Controller, xs: seq<real>)
    requires c.cfg.uMin <= c.cfg.uMax
    ensures forall k :: 0 <= k < |xs| ==> c.cfg.uMin <= Run(c, xs).outputs[k] <= c.cfg.uMax
    ensures |xs| > 0 ==> c.cfg.uMin <= Run(c, xs).final.state.u <= c.cfg.uMax
    ensures |xs| > 0 ==> Run(c, xs).final.state.u == Run(c, xs).outputs[|xs| - 1]
    decreases |xs|
  {
    if |xs| > 0 {
      var s := Update(c, xs[0]);
      RunOutputsInRange(s.next, xs[1..]);
    }
  }

  /** Once an observation leaves the controller frozen, repeating that
      observation keeps it frozen: the output is a fixed point. */
  lemma {:induction false} FrozenIsFixedPoint(c: Controller, x: real, n: nat)
    requires Update(c, x).next == c
    ensures Run(c, Repeat(x, n)).outputs == Repeat(c.state.u, n)
    ensures Run(c, Repeat(x, n)).final == c
  {
    if n > 0 {
      assert Repeat(x, n)[1..] == Repeat(x, n - 1);
      FrozenIsFixedPoint(c, x, n - 1);
      assert Repeat(c.state.u, n) == [c.state.u] + Repeat(c.state.u, n - 1);
    }
  }

  /** Anti-windup at the upper bound: a saturated controller that is pushed
      further up keeps its integral and derivative memories. */
  lemma SaturatedHighFreezes(c: Controller, xObs: real)
    requires c.cfg.uMin <= c.cfg.uMax
    requires c.state.u == c.cfg.uMax
    requires Raw(c, Error(c, xObs)) >= c.cfg.uMax
    ensures Update(c, xObs).next == c
    ensures Update(c, xObs).u == c.cfg.uMax
  {
  }

  /** Anti-windup at the lower bound. */
  lemma SaturatedLowFreezes(c: Controller, xObs: real)
    requires c.cfg.uMin <= c.cfg.uMax
    requires c.state.u == c.cfg.uMin
    requires Raw(c, Error(c, xObs)) <= c.cfg.uMin
    ensures Update(c, xObs).next == c
    ensures Update(c, xObs).u == c.cfg.uMin
  {
  }

  /** Assigning a target forgets the history: two controllers with the same
      configuration are indistinguishable after the same assignment, and a
      controller run on any observations then assigned a target is the
      freshly constructed one. */
  lemma SetTargetForgetsHistory(c: Controller, xs: seq<real>, xTargetNew: real)
    ensures SetTarget(Run(c, xs).final, xTargetNew) == SetTarget(c, xTargetNew)
    ensures SetTarget(c, xTargetNew) == Controller(c.cfg, xTargetNew, Initial(c.cfg))
  {
  }

  /** Constructing with one target and then assigning another is the same
      as constructing with the second target. */
  lemma SetTargetAfterNew(xTarget: real, xTargetNew: real, uMin: real, uMax: real,
                          uStart: Option<real>, reverse: bool,
                          kp: real, ki: real, kd: real, gamma: real)
    ensures SetTarget(New(xTarget, uMin, uMax, uStart, reverse, kp, ki, kd, gamma), xTargetNew)
            == New(xTargetNew, uMin, uMax, uStart, reverse, kp, ki, kd, gamma)
  {
  }

  /** Target 60, bounds [10, 100], start 50, Kp 0.5, Ki 1, Kd 1, gamma 0.9:
      the first observation of 70 yields 25, below the start value (the law
      is positional, not incremental), and commits the error 10. */
  lemma FirstUpdateAboveTarget()
    ensures var c := New(60.0, 10.0, 100.0, Some(50.0), false, 0.5, 1.0, 1.0, 0.9);
            var s := Update(c, 70.0);
            s.u == 25.0 && s.next.state == State(25.0, 10.0, 10.0)
  {
  }

  /** With the default gains, bounds [10, 100] and a start speed of 40, an
      observation 10 degrees above target 60 proposes 15.5. */
  lemma FirstUpdateWithDefaults()
    ensures var c := New(60.0, 10.0, 100.0, Some(40.0), false,
                         DefaultKp, DefaultKi, DefaultKd, DefaultGamma);
            Update(c, 70.0).u == 15.5
  {
  }
}
