/**
 * The marble of app/marble.ts: a kinematic object advanced in fixed steps of
 * 1/256 time units, with the world's collisions applied after each step.
 *
 * `Marble` keeps the source's `Point` fields and changes them in place;
 * `Advance` is the step it is proved to take and `Run` a sequence of them.
 * The world is a function from the marble's position and velocity to the
 * collisions it reports.
 */
module Marble {
  import opened Wrappers
  import opened Vectors
  import opened Physics

  /** `PHYSICS_STEP_SIZE`: the fixed time step. */
  const StepSize: real := 1.0 / 256.0

  /** `TIME_RATE`: the initial `timeRate`. */
  const TimeRate: real := 0.5

  /** `DEFAULT_RADIUS`: the size of the default marble. */
  const DefaultRadius: real := 0.39744186046511627906976744186047 / 2.0

  /** The numeric members of the `DefaultMarble` datablock. */
  const MarbleData: map<string, real> := map[
    "maxRollVelocity" := 15.0, "angularAcceleration" := 75.0,
    "brakingAcceleration" := 30.0, "gravity" := 20.0,
    "staticFriction" := 1.1, "kineticFriction" := 0.7,
    "bounceKineticFriction" := 0.2, "maxDotSlide" := 0.5,
    "bounceRestitution" := 0.5, "jumpImpulse" := 7.5,
    "maxForceRadius" := 50.0]

  /** The datablock's `gravity`. */
  const Gravity: real := MarbleData["gravity"]

  /** The `mass` field. */
  const Mass: real := 1.0

  /** The `moment` getter of the default marble: `2/5 * mass * size * size`. */
  const Moment: real := 2.0 / 5.0 * Mass * DefaultRadius * DefaultRadius

  /** The `material` getter: only the datablock's restitution. */
  const MarbleMaterial: Material := map["bounceRestitution" := MarbleData["bounceRestitution"]]

  /** `world.colisions(marble)`, as a function of the marble's position and velocity. */
  type World = (Vec3, Vec3) -> seq<Colision>

  /** The `StepCallback` member: `function() { }`, or a callback a controller attached. */
  datatype Callback = Idle | Hook(id: nat)

  /** What a step changes: the values held by the marble's points and its `onGround` flag. */
  datatype Motion = Motion(
    position: Vec3, velocity: Vec3, force: Vec3,
    angularVelocity: Vec3, torque: Vec3,
    groundNormal: Vec3, onGround: bool)

  /**
   * The collision loop of `step`: each collision is applied to the velocity
   * in order, and its normal, scaled by the weight it returns, is added to
   * the ground normal.
   */
  function Collide(cs: seq<Colision>, v: Vec3, normal: Vec3): (Vec3, Vec3)
  {
    if |cs| == 0 then (v, normal)
    else
      var (w, u) := Respond(cs[0], v, Some(MarbleMaterial));
      Collide(cs[1..], u, normal.Add(Normal(cs[0]).Scale(w)))
  }

  /** The Euler part of `step()`: position, velocity and angular velocity advance; force and torque clear. */
  function Euler(m: Motion, gravityVec: Vec3): Motion {
    m.(position := m.position.Add(m.velocity.Scale(StepSize)),
       velocity := m.velocity.Add(gravityVec.Scale(Gravity * StepSize)).Add(m.force.Scale(StepSize / Mass)),
       force := m.force.Scale(0.0),
       angularVelocity := m.angularVelocity.Add(m.torque.Scale(StepSize / Moment)),
       torque := m.torque.Scale(0.0))
  }

  /** One `step()`: the Euler part, then the collisions the world reports for the new position and velocity. */
  function Advance(m: Motion, gravityVec: Vec3, world: Option<World>): Motion {
    var e := Euler(m, gravityVec);
    if world.None? then e.(groundNormal := Zero, onGround := false)
    else
      var cs := world.value(e.position, e.velocity);
      var (v, g) := Collide(cs, e.velocity, Zero);
      e.(velocity := v, groundNormal := g, onGround := |cs| > 0)
  }

  /** `n` copies of the callback: what `n` steps run. */
  function Repeat(c: Callback, n: nat): (r: seq<Callback>)
    ensures |r| == n && forall i :: 0 <= i < n ==> r[i] == c
  {
    seq(n, _ => c)
  }

  /** `n` steps. */
  function Run(m: Motion, gravityVec: Vec3, world: Option<World>, n: nat): Motion {
    if n == 0 then m else Advance(Run(m, gravityVec, world, n - 1), gravityVec, world)
  }

  /** A measure of the time debt: how many whole steps fit below it. */
  function Ticks(t: real): nat {
    if t <= 0.0 then 0 else (t * 256.0).Floor + 1
  }

  /** How many steps `physics` takes for a time debt `t`: one per step while the debt is positive. */
  function Steps(t: real): (n: nat)
    ensures t <= 0.0 ==> n == 0
    ensures t > 0.0 ==> n >= 1
    ensures -StepSize < t - n as real * StepSize <= 0.0 || (t <= 0.0 && n == 0)
    decreases Ticks(t)
  {
    if t <= 0.0 then 0 else 1 + Steps(t - StepSize)
  }

  /** The time debt `physics` leaves: the debt less the steps it took. */
  function Settle(t: real): (r: real)
    ensures t <= 0.0 ==> r == t
    ensures t > 0.0 ==> -StepSize < r <= 0.0
    decreases Ticks(t)
  {
    if t <= 0.0 then t else Settle(t - StepSize)
  }

  /** The steps are the whole debt: what is left is the debt less the time of the steps taken. */
  lemma {:induction false} SettleIsDebtLessSteps(t: real)
    ensures Settle(t) == t - Steps(t) as real * StepSize
    decreases Ticks(t)
  {
    if t > 0.0 {
      SettleIsDebtLessSteps(t - StepSize);
    }
  }

  /** The number of steps is the debt rounded up to whole steps. */
  lemma {:induction false} StepsRoundUp(t: real)
    ensures t > 0.0 ==> Steps(t) == -((-t * 256.0).Floor)
    decreases Ticks(t)
  {
    if t > 0.0 {
      StepsRoundUp(t - StepSize);
      assert -(t - StepSize) * 256.0 == -t * 256.0 + 1.0;
    }
  }

  /** One step off a positive debt: one step fewer remains, and the same debt is left at the end. */
  lemma DebtStep(t: real)
    requires t > 0.0
    ensures Steps(t) == 1 + Steps(t - StepSize) && Settle(t) == Settle(t - StepSize)
    ensures Ticks(t - StepSize) < Ticks(t)
  {
  }

  lemma RepeatStep(c: Callback, k: nat)
    ensures Repeat(c, k + 1) == Repeat(c, k) + [c]
  {
  }

  class Marble {
    const position: Point
    const velocity: Point
    const force: Point
    const angularVelocity: Point
    const torque: Point
    const groundNormal: Point
    const gravityVec: Point
    var onGround: bool
    var world: Option<World>
    var stepCallback: Callback
    /** The callbacks the steps have run, in order. */
    var calls: seq<Callback>
    var timeError: real
    var timeRate: real

    /** The seven points are distinct objects. */
    predicate Valid()
      reads this
    {
      && position != velocity && position != force && position != angularVelocity
      && position != torque && position != groundNormal && position != gravityVec
      && velocity != force && velocity != angularVelocity && velocity != torque
      && velocity != groundNormal && velocity != gravityVec
      && force != angularVelocity && force != torque && force != groundNormal && force != gravityVec
      && angularVelocity != torque && angularVelocity != groundNormal && angularVelocity != gravityVec
      && torque != groundNormal && torque != gravityVec
      && groundNormal != gravityVec
    }

    function State(): Motion
      reads this, position, velocity, force, angularVelocity, torque, groundNormal
    {
      Motion(position.Value(), velocity.Value(), force.Value(),
        angularVelocity.Value(), torque.Value(), groundNormal.Value(), onGround)
    }

    /** `new Marble(pos, world, null, vel)`: the default marble, holding the given points. */
    constructor (pos: Point, world: Option<World>, vel: Point)
      requires pos != vel
      ensures Valid()
      ensures position == pos && velocity == vel && this.world == world
      ensures State() == Motion(pos.Value(), vel.Value(), Zero, Zero, Zero, Zero, false)
      ensures gravityVec.Value() == Vec3(0.0, -1.0, 0.0)
      ensures stepCallback == Idle && calls == []
      ensures timeError == 0.0 && timeRate == TimeRate
    {
      position := pos;
      velocity := vel;
      force := new Point(0.0, 0.0, 0.0);
      angularVelocity := new Point(0.0, 0.0, 0.0);
      torque := new Point(0.0, 0.0, 0.0);
      groundNormal := new Point(0.0, 0.0, 0.0);
      gravityVec := new Point(0.0, -1.0, 0.0);
      onGround := false;
      this.world := world;
      stepCallback := Idle;
      calls := [];
      timeError := 0.0;
      timeRate := TimeRate;
    }

    method Attach(c: Callback)
      modifies this
      ensures stepCallback == c
      ensures calls == old(calls) && world == old(world) && onGround == old(onGround)
      ensures timeError == old(timeError) && timeRate == old(timeRate)
    {
      stepCallback := c;
    }

    method Detach()
      modifies this
      ensures stepCallback == Idle
      ensures calls == old(calls) && world == old(world) && onGround == old(onGround)
      ensures timeError == old(timeError) && timeRate == old(timeRate)
    {
      stepCallback := Idle;
    }

    /** The Euler part of `step()`, through the points' in-place operations. */
    method Integrate()
      requires Valid()
      modifies position, velocity, force, angularVelocity, torque
      ensures State() == Euler(old(State()), gravityVec.Value())
    {
      Translate();
      Spin();
    }

    /** The linear half of the Euler part: position and velocity advance, the force clears. */
    method Translate()
      requires Valid()
      modifies position, velocity, force
      ensures var e := Euler(old(State()), gravityVec.Value());
        position.Value() == e.position && velocity.Value() == e.velocity && force.Value() == e.force
    {
      var dt := StepSize;
      var moved := velocity.Scale(dt);
      var _ := position.AddEq(moved);
      var fall := gravityVec.Scale(Gravity * dt);
      var push := force.Scale(dt / Mass);
      var _ := velocity.AddEq(fall);
      var _ := velocity.AddEq(push);
      var _ := force.ScaleEq(0.0);
    }

    /** The angular half of the Euler part: the angular velocity advances, the torque clears. */
    method Spin()
      requires Valid()
      modifies angularVelocity, torque
      ensures var e := Euler(old(State()), gravityVec.Value());
        angularVelocity.Value() == e.angularVelocity && torque.Value() == e.torque
    {
      var spin := torque.Scale(StepSize / Moment);
      var _ := angularVelocity.AddEq(spin);
      var _ := torque.ScaleEq(0.0);
    }

    /** The collision loop of `step()`: each collision changes the velocity and adds to the ground normal. */
    method Collisions(cs: seq<Colision>)
      requires Valid()
      modifies velocity, groundNormal
      ensures (velocity.Value(), groundNormal.Value()) == Collide(cs, old(velocity.Value()), old(groundNormal.Value()))
    {
      var i := 0;
      while i < |cs|
        invariant 0 <= i <= |cs|
        invariant Collide(cs, old(velocity.Value()), old(groundNormal.Value()))
          == Collide(cs[i..], velocity.Value(), groundNormal.Value())
      {
        var c := cs[i];
        var n := Normal(c);
        var weight := Apply(c, velocity, Some(MarbleMaterial));
        var along := new Point(n.x, n.y, n.z);
        var _ := along.ScaleEq(weight);
        var _ := groundNormal.AddEq(along);
        assert cs[i..][1..] == cs[i + 1..];
        i := i + 1;
      }
    }

    /**
     * `step()`: one fixed step. The orientation update (`angle.addVelocityEq`)
     * is not part of this model.
     */
    method Step()
      requires Valid()
      modifies this, position, velocity, force, angularVelocity, torque, groundNormal
      ensures Valid()
      ensures State() == Advance(old(State()), gravityVec.Value(), world)
      ensures timeError == old(timeError) - StepSize
      ensures calls == old(calls) + [stepCallback]
      ensures stepCallback == old(stepCallback) && world == old(world) && timeRate == old(timeRate)
    {
      timeError := timeError - StepSize;
      Integrate();
      onGround := false;
      groundNormal.SetXyz([0.0, 0.0, 0.0]);
      if world.Some? {
        var cs := world.value(position.Value(), velocity.Value());
        Collisions(cs);
        onGround := |cs| > 0;
      }
      calls := calls + [stepCallback];
    }

    /**
     * `physics(dt)`: the time debt grows by `timeRate * dt` and steps are
     * taken while it is positive.
     */
    method Physics(dt: real)
      requires Valid()
      modifies this, position, velocity, force, angularVelocity, torque, groundNormal
      ensures Valid()
      ensures var debt := old(timeError) + old(timeRate) * dt;
        && State() == Run(old(State()), gravityVec.Value(), world, Steps(debt))
        && timeError == Settle(debt)
        && calls == old(calls) + Repeat(stepCallback, Steps(debt))
      ensures stepCallback == old(stepCallback) && world == old(world) && timeRate == old(timeRate)
    {
      ghost var start := State();
      timeError := timeError + timeRate * dt;
      ghost var debt := timeError;
      ghost var k: nat := 0;
      while timeError > 0.0
        invariant Valid()
        invariant Steps(debt) == k + Steps(timeError)
        invariant Settle(debt) == Settle(timeError)
        invariant State() == Run(start, gravityVec.Value(), world, k)
        invariant calls == old(calls) + Repeat(stepCallback, k)
        invariant stepCallback == old(stepCallback) && world == old(world) && timeRate == old(timeRate)
        decreases Ticks(timeError)
      {
        DebtStep(timeError);
        RepeatStep(stepCallback, k);
        Step();
        k := k + 1;
      }
    }
  }

  /** `onGround` after a step: the world is present and reported at least one collision. */
  lemma OnGroundWhenTouching(m: Motion, g: Vec3, world: Option<World>)
    ensures Advance(m, g, world).onGround <==>
      world.Some? && |world.value(Advance(m, g, None).position, Advance(m, g, None).velocity)| > 0
  {
  }

  /** A step always leaves no pending force and no pending torque. */
  lemma StepClearsForceAndTorque(m: Motion, g: Vec3, world: Option<World>)
    ensures Advance(m, g, world).force == Zero && Advance(m, g, world).torque == Zero
  {
  }

  /**
   * Without a world, under the default gravity and with no pending force,
   * the marble falls freely: after `n` steps its vertical speed has dropped
   * by `gravity * n / 256` and its horizontal speed is unchanged.
   */
  lemma {:induction false} FreeFall(m: Motion, n: nat)
    requires m.force == Zero
    ensures Run(m, Vec3(0.0, -1.0, 0.0), None, n).velocity
      == Vec3(m.velocity.x, m.velocity.y - n as real * Gravity * StepSize, m.velocity.z)
    ensures n > 0 ==> Run(m, Vec3(0.0, -1.0, 0.0), None, n).force == Zero
  {
    if n > 0 {
      FreeFall(m, n - 1);
    }
  }

  /**
   * A single collision with a surface the marble approaches after the
   * Euler update stops the marble along the surface's normal and reports
   * that normal, scaled by the approach speed, as the ground normal.
   */
  lemma LandingOnAPlane(m: Motion, g: Vec3, world: World, n: Vec3)
    requires var a := Advance(m, g, None); world(a.position, a.velocity) == [Basic(n)]
    requires Advance(m, g, None).velocity.Dot(n) < 0.0
    ensures Advance(m, g, Some(world)).velocity.Dot(n) == 0.0
    ensures Advance(m, g, Some(world)).groundNormal == Zero.Add(n.Scale(-Advance(m, g, None).velocity.Dot(n)))
    ensures Advance(m, g, Some(world)).onGround
  {
    var v := Advance(m, g, None).velocity;
    BasicStopsApproach(n, v, Some(MarbleMaterial));
    var (w, u) := Respond(Basic(n), v, Some(MarbleMaterial));
    assert Collide([Basic(n)], v, Zero) == Collide([], u, Zero.Add(n.Scale(w)));
  }

  /**
   * `physics` keeps the time debt in the window `(-1/256, 0]` once it is
   * there: whatever non-negative time passes, the marble catches up with
   * the clock to within one step and never runs ahead of it by a full step.
   */
  lemma DebtStaysWithinOneStep(e: real, rate: real, dt: real)
    requires -StepSize < e <= 0.0 && rate >= 0.0 && dt >= 0.0
    ensures -StepSize < Settle(e + rate * dt) <= 0.0
  {
    var d := e + rate * dt;
    assert rate * dt >= 0.0 by {
      NonNegativeProduct(rate, dt, rate * dt);
    }
  }

  lemma NonNegativeProduct(x: real, y: real, p: real)
    requires x >= 0.0 && y >= 0.0 && p == x * y
    ensures p >= 0.0
  {
  }
}
