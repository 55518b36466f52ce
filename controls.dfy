/**
 * The input state machines of app/controlers.ts: the free camera's key
 * flags, speed presets and mouse toggle, and the marble camera's held
 * controls with their one-shot rule.
 *
 * A key event is its code and whether the meta key is held. The rotations
 * that need trigonometry or square roots (the look angle, its twist about
 * the vertical, the normalised ground normal) are given to `step` as values.
 */
module Controls {
  import opened Wrappers
  import opened Vectors
  import Marble

  /** `Math.PI / 2` as a double. */
  const HalfPi: real := 1.5707963267948966

  /** `Math.PI * 2 / 720` as a double: the default mouse speed, in radians per pixel. */
  const MouseSpeed: real := 0.008726646259971648

  /** `peg(n)`: `n` held to [-π/2, π/2]. */
  function Peg(n: real): (r: real)
    ensures -HalfPi <= r <= HalfPi
    ensures -HalfPi <= n <= HalfPi ==> r == n
    ensures n > HalfPi ==> r == HalfPi
    ensures n < -HalfPi ==> r == -HalfPi
  {
    var capped := if n < HalfPi then n else HalfPi;
    if capped > -HalfPi then capped else -HalfPi
  }

  datatype KeyEvent = KeyEvent(code: string, meta: bool)

  /** `2^e`. */
  function Pow2(e: int): real
    decreases if e < 0 then -e else e
  {
    if e == 0 then 1.0
    else if e > 0 then 2.0 * Pow2(e - 1)
    else Pow2(e + 1) / 2.0
  }

  /** The codes of the free camera's movement controls. */
  const FreeCamKeys: set<string> := {"KeyW", "KeyS", "KeyA", "KeyD", "Space", "ShiftLeft"}

  /** The speeds the free camera's digit callbacks pass to `scaleSpeed`. */
  const DigitSpeeds: map<string, real> := map[
    "Digit1" := 0.0625, "Digit2" := 0.125, "Digit3" := 0.25, "Digit4" := 0.5,
    "Digit5" := 1.0, "Digit6" := 2.0, "Digit7" := 4.0, "Digit8" := 8.0]

  function DigitCode(k: nat): string
    requires 1 <= k <= 9
  {
    "Digit" + [(48 + k) as char]
  }

  /** The digit key `k` selects speed `2^(k-5)`. */
  lemma DigitSpeedIsPowerOfTwo(k: nat)
    requires 1 <= k <= 8
    ensures DigitCode(k) in DigitSpeeds && DigitSpeeds[DigitCode(k)] == Pow2(k - 5)
  {
    assert Pow2(0) == 1.0;
    assert Pow2(1) == 2.0 && Pow2(2) == 4.0 && Pow2(3) == 8.0;
    assert Pow2(-1) == 0.5 && Pow2(-2) == 0.25;
    assert Pow2(-3) == 0.125 && Pow2(-4) == 0.0625;
    var code := DigitCode(k);
    if k == 1 { assert code == "Digit1"; }
    else if k == 2 { assert code == "Digit2"; }
    else if k == 3 { assert code == "Digit3"; }
    else if k == 4 { assert code == "Digit4"; }
    else if k == 5 { assert code == "Digit5"; }
    else if k == 6 { assert code == "Digit6"; }
    else if k == 7 { assert code == "Digit7"; }
    else { assert code == "Digit8"; }
  }

  /** A key the free camera has a callback for. */
  predicate HasCallback(code: string) {
    code == "Backquote" || code in DigitSpeeds
  }

  /** The free camera's fields that its key callbacks change; `held` is the `s` flag of each control. */
  datatype FreeCamState = FreeCamState(speed: real, accel: real, drag: real, mouseCaught: bool, held: map<string, bool>)

  /** `scaleSpeed(s)`. */
  function WithSpeed(st: FreeCamState, s: real): (r: FreeCamState)
    ensures r.speed == s && r.accel == 25.0 * s && r.drag == 12.5 * s
    ensures r.mouseCaught == st.mouseCaught && r.held == st.held
  {
    var accel := s * 25.0;
    st.(speed := s, accel := accel, drag := accel / 2.0)
  }

  /** `callbacks[code](down)`. */
  function OnCallback(st: FreeCamState, code: string, down: bool): FreeCamState
    requires HasCallback(code)
  {
    if !down then st
    else if code == "Backquote" then st.(mouseCaught := !st.mouseCaught)
    else WithSpeed(st, DigitSpeeds[code])
  }

  /** `keyDownCallback(ke)` of the free camera. */
  function OnFreeKeyDown(st: FreeCamState, ke: KeyEvent): FreeCamState {
    var flagged := if ke.code in st.held && !ke.meta then st.(held := st.held[ke.code := true]) else st;
    if HasCallback(ke.code) && !ke.meta then OnCallback(flagged, ke.code, true) else flagged
  }

  /** `keyUpCallback(ke)` of the free camera. */
  function OnFreeKeyUp(st: FreeCamState, ke: KeyEvent): FreeCamState {
    var flagged := if ke.code in st.held then st.(held := st.held[ke.code := false]) else st;
    if HasCallback(ke.code) && !ke.meta then OnCallback(flagged, ke.code, false) else flagged
  }

  /** The free camera's controls are exactly its movement keys. */
  predicate FreeCamWellFormed(st: FreeCamState) {
    st.held.Keys == FreeCamKeys
  }

  /**
   * Backquote flips `mouseCaught` on key-down without meta, and its key-up
   * changes nothing, with or without meta.
   */
  lemma BackquoteTogglesOnKeyDown(st: FreeCamState, meta: bool)
    requires FreeCamWellFormed(st)
    ensures OnFreeKeyDown(st, KeyEvent("Backquote", false)) == st.(mouseCaught := !st.mouseCaught)
    ensures OnFreeKeyUp(st, KeyEvent("Backquote", meta)) == st
  {
    assert "Backquote" !in FreeCamKeys;
  }

  /**
   * The digit key `k` without meta sets speed `2^(k-5)`, acceleration 25
   * times and drag 12.5 times that, and leaves the rest; its key-up changes
   * nothing.
   */
  lemma DigitKeySetsSpeed(st: FreeCamState, k: nat, meta: bool)
    requires FreeCamWellFormed(st) && 1 <= k <= 8
    ensures var r := OnFreeKeyDown(st, KeyEvent(DigitCode(k), false));
      && r.speed == Pow2(k - 5) && r.accel == 25.0 * Pow2(k - 5) && r.drag == 12.5 * Pow2(k - 5)
      && r.mouseCaught == st.mouseCaught && r.held == st.held
    ensures OnFreeKeyUp(st, KeyEvent(DigitCode(k), meta)) == st
  {
    DigitSpeedIsPowerOfTwo(k);
    assert DigitCode(k) !in FreeCamKeys by {
      assert DigitCode(k)[0] == 'D' && |DigitCode(k)| == 6;
    }
  }

  /**
   * A movement key is held after a key-down without meta and released after
   * any key-up, meta or not; a key-down with meta changes nothing.
   */
  lemma MovementKeys(st: FreeCamState, code: string, meta: bool)
    requires FreeCamWellFormed(st) && code in FreeCamKeys
    ensures OnFreeKeyDown(st, KeyEvent(code, false)) == st.(held := st.held[code := true])
    ensures OnFreeKeyUp(st, KeyEvent(code, meta)) == st.(held := st.held[code := false])
    ensures OnFreeKeyDown(st, KeyEvent(code, true)) == st
  {
    assert !HasCallback(code);
  }

  /** A code that is neither a control nor a callback changes nothing. */
  lemma UnknownKeysAreIgnored(st: FreeCamState, ke: KeyEvent)
    requires FreeCamWellFormed(st) && ke.code !in FreeCamKeys && !HasCallback(ke.code)
    ensures OnFreeKeyDown(st, ke) == st && OnFreeKeyUp(st, ke) == st
  {
  }

  /** `FreeCam`: the fields its callbacks change. */
  class FreeCam {
    var speed: real
    var accel: real
    var drag: real
    var mouseCaught: bool
    var held: map<string, bool>
    var angleX: real
    var angleY: real
    const mouseSpeed: real

    function State(): FreeCamState
      reads this
    {
      FreeCamState(speed, accel, drag, mouseCaught, held)
    }

    /** `new FreeCam(cam)` with the default speeds: nothing held, mouse free. */
    constructor ()
      ensures State() == FreeCamState(4.0, 100.0, 50.0, false, map k | k in FreeCamKeys :: false)
      ensures FreeCamWellFormed(State())
      ensures angleX == 0.0 && angleY == 0.0 && mouseSpeed == MouseSpeed
    {
      speed, accel, drag := 4.0, 100.0, 50.0;
      mouseCaught := false;
      held := map k | k in FreeCamKeys :: false;
      angleX, angleY := 0.0, 0.0;
      mouseSpeed := MouseSpeed;
    }

    method ScaleSpeed(s: real)
      modifies this
      ensures State() == WithSpeed(old(State()), s)
      ensures angleX == old(angleX) && angleY == old(angleY)
    {
      speed := s;
      accel := s * 25.0;
      drag := accel / 2.0;
    }

    method Callback(code: string, down: bool)
      requires HasCallback(code)
      modifies this
      ensures State() == OnCallback(old(State()), code, down)
      ensures angleX == old(angleX) && angleY == old(angleY)
    {
      if code == "Backquote" {
        if down {
          mouseCaught := !mouseCaught;
        }
      } else if down {
        ScaleSpeed(DigitSpeeds[code]);
      }
    }

    method KeyDownCallback(ke: KeyEvent)
      modifies this
      ensures State() == OnFreeKeyDown(old(State()), ke)
      ensures angleX == old(angleX) && angleY == old(angleY)
    {
      if ke.code in held && !ke.meta {
        held := held[ke.code := true];
      }
      if HasCallback(ke.code) && !ke.meta {
        Callback(ke.code, true);
      }
    }

    method KeyUpCallback(ke: KeyEvent)
      modifies this
      ensures State() == OnFreeKeyUp(old(State()), ke)
      ensures angleX == old(angleX) && angleY == old(angleY)
    {
      if ke.code in held {
        held := held[ke.code := false];
      }
      if HasCallback(ke.code) && !ke.meta {
        Callback(ke.code, false);
      }
    }

    /** `mouseMoveCallback(me)`: the angles move by the mouse speed times the movement. */
    method MouseMoveCallback(movementX: real, movementY: real)
      modifies this
      ensures angleX == old(angleX) + mouseSpeed * movementX
      ensures angleY == old(angleY) + mouseSpeed * movementY
      ensures State() == old(State())
    {
      angleX := angleX + mouseSpeed * movementX;
      angleY := angleY + mouseSpeed * movementY;
    }
  }

  /** A control's `v`: a direction, or `"n"` for the marble's ground normal. */
  datatype Direction = Along(v: Vec3) | GroundNormal

  /**
   * A marble-camera control: `s` (held), `r` (frame), `v`, `t`, `sc`,
   * `scale`, `condition`, `times` and `left`, the optional members as Options.
   */
  datatype Control = Control(
    code: string, held: bool, frame: int, dir: Option<Direction>, torque: Option<Vec3>,
    sc: Option<real>, scale: Option<string>, condition: Option<string>,
    times: Option<int>, left: Option<int>)

  /** `MarbleCam.controls`, in declaration order. */
  const MarbleCamControls: seq<Control> := [
    Control("KeyW", false, 1, Some(Along(Vec3(0.0, 0.0, -1.0))), Some(Vec3(-1.0, 0.0, 0.0)),
      None, Some("angularAcceleration"), None, None, None),
    Control("KeyS", false, 1, Some(Along(Vec3(0.0, 0.0, 1.0))), Some(Vec3(1.0, 0.0, 0.0)),
      None, Some("angularAcceleration"), None, None, None),
    Control("KeyA", false, 1, Some(Along(Vec3(-1.0, 0.0, 0.0))), Some(Vec3(0.0, 0.0, -1.0)),
      None, Some("angularAcceleration"), None, None, None),
    Control("KeyD", false, 1, Some(Along(Vec3(1.0, 0.0, 0.0))), Some(Vec3(0.0, 0.0, 1.0)),
      None, Some("angularAcceleration"), None, None, None),
    Control("KeyE", false, 0, Some(GroundNormal), None,
      Some(100.0), Some("jumpImpulse"), Some("onGround"), None, None),
    Control("KeyR", false, 0, Some(GroundNormal), None,
      Some(100.0), Some("jumpImpulse"), Some("onGround"), Some(1), Some(1))]

  /** Every `scale` names a member of the marble's datablock. */
  predicate ScalesKnown(cs: seq<Control>) {
    forall i :: 0 <= i < |cs| && cs[i].scale.Some? ==> cs[i].scale.value in Marble.MarbleData
  }

  /** `target[condition] != false`: only `onGround` is a member that can be false. */
  predicate ConditionHolds(condition: Option<string>, onGround: bool) {
    condition.None? || condition.value != "onGround" || onGround
  }

  /** Whether a held control acts this step. */
  predicate Fires(c: Control, onGround: bool) {
    c.held && c.left != Some(0) && ConditionHolds(c.condition, onGround)
  }

  /** The size of a control's push: `marbleData[scale]` (or 1), times `sc` when it has one. */
  function Magnitude(c: Control): real
    requires c.scale.Some? ==> c.scale.value in Marble.MarbleData
  {
    var s := if c.scale.Some? then Marble.MarbleData[c.scale.value] else 1.0;
    if c.sc.Some? then s * c.sc.value else s
  }

  /** What `step` is given: the marble's `onGround`, its unit ground normal, the look angle's vertical twist and the look angle. */
  datatype Context = Context(onGround: bool, unitNormal: Vec3, twist: Quat, look: Quat)

  /** A vector of the control's frame in world coordinates. */
  function Rotate(frame: int, ctx: Context, v: Vec3): Vec3 {
    if frame == 0 then v else if frame == 1 then ctx.twist.Apply(v) else ctx.look.Apply(v)
  }

  /** The force and torque after one firing control pushes with magnitude `s`. */
  function Push(c: Control, s: real, ctx: Context, force: Vec3, torque: Vec3): (Vec3, Vec3) {
    if c.frame != 0 && c.frame != 1 && c.frame != 2 then (force, torque)
    else
      var f := match c.dir
        case None => force
        case Some(GroundNormal) => force.Add(ctx.unitNormal.Scale(s))
        case Some(Along(v)) => force.Add(Rotate(c.frame, ctx, v.Scale(s)));
      var t := if c.torque.Some? then torque.Add(Rotate(c.frame, ctx, c.torque.value.Scale(s))) else torque;
      (f, t)
  }

  /** One control's turn in `step`. */
  function StepOne(c: Control, ctx: Context, force: Vec3, torque: Vec3): (Control, Vec3, Vec3)
    requires c.scale.Some? ==> c.scale.value in Marble.MarbleData
  {
    if !Fires(c, ctx.onGround) then (c, force, torque)
    else
      var after := if c.left.Some? then c.(left := Some(c.left.value - 1)) else c;
      var (f, t) := Push(c, Magnitude(c), ctx, force, torque);
      (after, f, t)
  }

  /** `step` from control `i` on. */
  function StepFrom(cs: seq<Control>, i: nat, ctx: Context, force: Vec3, torque: Vec3): (seq<Control>, Vec3, Vec3)
    requires i <= |cs| && ScalesKnown(cs)
    decreases |cs| - i
  {
    if i == |cs| then (cs, force, torque)
    else
      var (c, f, t) := StepOne(cs[i], ctx, force, torque);
      StepFrom(cs[i := c], i + 1, ctx, f, t)
  }

  /** The first control with this code. */
  function IndexOf(cs: seq<Control>, code: string): (r: Option<nat>)
    ensures r.Some? ==>
      && r.value < |cs| && cs[r.value].code == code
      && (forall j :: 0 <= j < r.value ==> cs[j].code != code)
    ensures r.None? ==> forall j :: 0 <= j < |cs| ==> cs[j].code != code
  {
    if |cs| == 0 then None
    else if cs[0].code == code then Some(0)
    else
      var r := IndexOf(cs[1..], code);
      if r.Some? then Some(r.value + 1) else None
  }

  /** A key-down on a control: held, with `left` reset to `times`. */
  function Pressed(c: Control): Control {
    c.(held := true, left := c.times)
  }

  /** `keyDownCallback(ke)` of the marble camera. */
  function Press(cs: seq<Control>, code: string): seq<Control> {
    var k := IndexOf(cs, code);
    if k.None? then cs else cs[k.value := Pressed(cs[k.value])]
  }

  /** `keyUpCallback(ke)` of the marble camera. */
  function Release(cs: seq<Control>, code: string): seq<Control> {
    var k := IndexOf(cs, code);
    if k.None? then cs else cs[k.value := cs[k.value].(held := false)]
  }

  /**
   * The firing rule: a control that is not held, has no presses left, or
   * whose condition is false does nothing; one that fires counts down
   * `left` when it has one and pushes with its magnitude.
   */
  lemma FiringRule(c: Control, ctx: Context, force: Vec3, torque: Vec3)
    requires c.scale.Some? ==> c.scale.value in Marble.MarbleData
    ensures var (after, f, t) := StepOne(c, ctx, force, torque);
      && (!c.held || c.left == Some(0) || !ConditionHolds(c.condition, ctx.onGround) ==>
            after == c && f == force && t == torque)
      && (Fires(c, ctx.onGround) ==>
            && after == c.(left := if c.left.Some? then Some(c.left.value - 1) else None)
            && (f, t) == Push(c, Magnitude(c), ctx, force, torque))
  {
  }

  /**
   * A control pressed with `times` 1 (KeyR) fires on the first step whose
   * condition holds, and on no step after it until it is pressed again.
   */
  lemma OneShotFiresOncePerPress(c: Control, ctx: Context, later: Context, force: Vec3, torque: Vec3, f2: Vec3, t2: Vec3)
    requires c.times == Some(1) && (c.scale.Some? ==> c.scale.value in Marble.MarbleData)
    requires ConditionHolds(c.condition, ctx.onGround)
    ensures var (after, f, t) := StepOne(Pressed(c), ctx, force, torque);
      && Fires(Pressed(c), ctx.onGround) && after.left == Some(0)
      && (f, t) == Push(c, Magnitude(c), ctx, force, torque)
      && StepOne(after, later, f2, t2) == (after, f2, t2)
      && Pressed(after) == Pressed(c)
  {
    var after := StepOne(Pressed(c), ctx, force, torque).0;
    assert after == Pressed(c).(left := Some(0));
  }

  /** A pressed control without `times` fires on every step whose condition holds and stays as it is. */
  lemma RepeatingFiresEveryStep(c: Control, ctx: Context, force: Vec3, torque: Vec3)
    requires c.times.None? && (c.scale.Some? ==> c.scale.value in Marble.MarbleData)
    requires ConditionHolds(c.condition, ctx.onGround)
    ensures var (after, f, t) := StepOne(Pressed(c), ctx, force, torque);
      && after == Pressed(c)
      && (f, t) == Push(c, Magnitude(c), ctx, force, torque)
  {
    var p := Pressed(c);
    assert p.left.None? && Fires(p, ctx.onGround);
    assert Magnitude(p) == Magnitude(c) && Push(p, Magnitude(c), ctx, force, torque) == Push(c, Magnitude(c), ctx, force, torque);
  }

  /** KeyR is the one control with `times`: one jump per press; every other control repeats. */
  lemma OnlyKeyRIsOneShot()
    ensures forall i :: 0 <= i < |MarbleCamControls| ==>
      (MarbleCamControls[i].times.Some? <==> MarbleCamControls[i].code == "KeyR")
    ensures MarbleCamControls[5].code == "KeyR" && MarbleCamControls[5].times == Some(1)
  {
  }

  /**
   * A pressed jump key on the ground pushes the force along the unit ground
   * normal by `jumpImpulse` times 100 (750), and leaves the torque. Off the
   * ground the same key changes nothing.
   */
  lemma JumpPushesAlongGroundNormal(ctx: Context, force: Vec3, torque: Vec3)
    requires ctx.onGround
    ensures var (_, f, t) := StepOne(Pressed(MarbleCamControls[4]), ctx, force, torque);
      f == force.Add(ctx.unitNormal.Scale(750.0)) && t == torque
    ensures StepOne(Pressed(MarbleCamControls[4]), Context(false, ctx.unitNormal, ctx.twist, ctx.look), force, torque)
      == (Pressed(MarbleCamControls[4]), force, torque)
  {
    assert Magnitude(MarbleCamControls[4]) == 750.0;
  }

  /** A key-down on a control holds it and resets its count; a key-up releases it; other codes change nothing. */
  lemma PressAndRelease(cs: seq<Control>, code: string)
    ensures IndexOf(cs, code).None? ==> Press(cs, code) == cs && Release(cs, code) == cs
    ensures forall i :: 0 <= i < |cs| && cs[i].code == code && IndexOf(cs, code) == Some(i) ==>
      Press(cs, code)[i].held && Press(cs, code)[i].left == cs[i].times && !Release(cs, code)[i].held
    ensures |Press(cs, code)| == |cs| && |Release(cs, code)| == |cs|
  {
  }

  /** `MarbleCam`: its controls and angles, and the marble it drives. */
  class MarbleCam {
    var controls: seq<Control>
    var angleX: real
    var angleY: real
    const mouseSpeed: real
    const target: Marble.Marble

    /** `new MarbleCam(cam, target)`: nothing held. */
    constructor (target: Marble.Marble)
      ensures controls == MarbleCamControls && this.target == target
      ensures angleX == 0.0 && angleY == 0.0 && mouseSpeed == MouseSpeed
    {
      controls := MarbleCamControls;
      angleX, angleY := 0.0, 0.0;
      mouseSpeed := MouseSpeed;
      this.target := target;
    }

    method KeyDownCallback(ke: KeyEvent)
      modifies this
      ensures controls == Press(old(controls), ke.code)
      ensures angleX == old(angleX) && angleY == old(angleY)
    {
      var k := IndexOf(controls, ke.code);
      if k.Some? {
        var c := controls[k.value];
        controls := controls[k.value := c.(held := true, left := c.times)];
      }
    }

    method KeyUpCallback(ke: KeyEvent)
      modifies this
      ensures controls == Release(old(controls), ke.code)
      ensures angleX == old(angleX) && angleY == old(angleY)
    {
      var k := IndexOf(controls, ke.code);
      if k.Some? {
        controls := controls[k.value := controls[k.value].(held := false)];
      }
    }

    /** `mouseMoveCallback(me)`. */
    method MouseMoveCallback(movementX: real, movementY: real)
      modifies this
      ensures angleX == old(angleX) + mouseSpeed * movementX
      ensures angleY == old(angleY) + mouseSpeed * movementY
      ensures controls == old(controls)
    {
      angleX := angleX + mouseSpeed * movementX;
      angleY := angleY + mouseSpeed * movementY;
    }

    /**
     * `step()`: every firing control pushes the marble's force and torque in
     * place, in declaration order, and counts down its `left`.
     */
    method Step(unitNormal: Vec3, twist: Quat, look: Quat)
      requires target.Valid() && ScalesKnown(controls)
      modifies this, target.force, target.torque
      ensures ScalesKnown(controls)
      ensures (controls, target.force.Value(), target.torque.Value())
        == StepFrom(old(controls), 0, Context(old(target.onGround), unitNormal, twist, look),
                    old(target.force.Value()), old(target.torque.Value()))
      ensures angleX == old(angleX) && angleY == old(angleY)
    {
      var ctx := Context(target.onGround, unitNormal, twist, look);
      for i := 0 to |controls|
        invariant |controls| == |old(controls)| && ScalesKnown(controls)
        invariant StepFrom(old(controls), 0, ctx, old(target.force.Value()), old(target.torque.Value()))
          == StepFrom(controls, i, ctx, target.force.Value(), target.torque.Value())
        invariant angleX == old(angleX) && angleY == old(angleY)
      {
        var c := controls[i];
        ghost var before, force, torque := controls, target.force.Value(), target.torque.Value();
        ghost var next := StepOne(c, ctx, force, torque);
        if c.held {
          var cc := c.left != Some(0);
          if c.condition.Some? {
            cc := cc && (c.condition.value != "onGround" || target.onGround);
          }
          if cc {
            if c.left.Some? {
              controls := controls[i := c.(left := Some(c.left.value - 1))];
            }
            var s := 1.0;
            if c.scale.Some? {
              s := Marble.MarbleData[c.scale.value];
            }
            if c.sc.Some? {
              s := s * c.sc.value;
            }
            assert Fires(c, ctx.onGround) && s == Magnitude(c);
            PushTarget(c, s, ctx);
          }
        }
        assert before[i := next.0] == controls;
        assert target.force.Value() == next.1;
        assert target.torque.Value() == next.2;
      }
    }

    /** The push of one firing control, through `addEq` on the marble's force and torque. */
    method PushTarget(c: Control, s: real, ctx: Context)
      requires target.Valid()
      modifies target.force, target.torque
      ensures (target.force.Value(), target.torque.Value())
        == Push(c, s, ctx, old(target.force.Value()), old(target.torque.Value()))
    {
      if c.frame == 0 || c.frame == 1 || c.frame == 2 {
        if c.dir.Some? {
          match c.dir.value {
            case GroundNormal => AddTo(target.force, ctx.unitNormal.Scale(s));
            case Along(v) => AddTo(target.force, Rotate(c.frame, ctx, v.Scale(s)));
          }
        }
        if c.torque.Some? {
          AddTo(target.torque, Rotate(c.frame, ctx, c.torque.value.Scale(s)));
        }
      }
    }
  }

  /** `p.addEq(d)` with a new point holding `d`. */
  method AddTo(p: Point, d: Vec3)
    modifies p
    ensures p.Value() == old(p.Value()).Add(d)
  {
    var q := new Point(d.x, d.y, d.z);
    var _ := p.AddEq(q);
  }
}
