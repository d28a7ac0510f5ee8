/** One step of the particle field that the two compute shaders run for
    every texel: the velocity pass damps, adds the curl and attractor terms
    and clamps; the position pass moves by the velocity and clamps to the
    box. The curl noise and the attractor force are trigonometric and
    inverse-square float math and enter as given vectors. The shaders'
    wiring to the ping-pong scheduler is stated against the `Gpu` model. */
module Field {
  import opened Numeric
  import opened Gpu

  /** Half the side of the particle box (`BOX_HALF`). */
  const BoxHalf: real := 1.22
  /** The velocity shader's clamp bound. */
  const MaxSpeed: real := 0.07
  const Damping: real := 0.97
  /** The position shader's time step. */
  const StepScale: real := 0.02

  function ClampVec(v: Vec3, bound: real): Vec3
    requires bound >= 0.0
  {
    Vec3(Clamp(v.x, -bound, bound), Clamp(v.y, -bound, bound), Clamp(v.z, -bound, bound))
  }

  predicate WithinBox(v: Vec3, bound: real)
  {
    InRange(v.x, -bound, bound) && InRange(v.y, -bound, bound) && InRange(v.z, -bound, bound)
  }

  /** The velocity shader: `clamp(vel * 0.97 + curl + force, -0.07, 0.07)`. */
  function VelocityStep(vel: Vec3, curl: Vec3, force: Vec3): Vec3
  {
    ClampVec(Vec3(vel.x * Damping + curl.x + force.x,
                  vel.y * Damping + curl.y + force.y,
                  vel.z * Damping + curl.z + force.z), MaxSpeed)
  }

  /** The position shader: `clamp(pos + vel * 0.02, -BOX_HALF, BOX_HALF)`. */
  function PositionStep(pos: Vec3, vel: Vec3): Vec3
  {
    ClampVec(Vec3(pos.x + vel.x * StepScale, pos.y + vel.y * StepScale, pos.z + vel.z * StepScale), BoxHalf)
  }

  /** One particle's step: both passes read the pre-step buffers, so the
      position moves by the velocity it had before this step. */
  function ParticleStep(pos: Vec3, vel: Vec3, curl: Vec3, force: Vec3): (Vec3, Vec3)
  {
    (PositionStep(pos, vel), VelocityStep(vel, curl, force))
  }

  /** The whole field: every particle's step, side by side. */
  function FieldStep(pos: seq<Vec3>, vel: seq<Vec3>, curl: seq<Vec3>, force: seq<Vec3>): (r: (seq<Vec3>, seq<Vec3>))
    requires |pos| == |vel| == |curl| == |force|
    ensures |r.0| == |r.1| == |pos|
    ensures forall i :: 0 <= i < |pos| ==> (r.0[i], r.1[i]) == ParticleStep(pos[i], vel[i], curl[i], force[i])
  {
    (seq(|pos|, i requires 0 <= i < |pos| => PositionStep(pos[i], vel[i])),
     seq(|pos|, i requires 0 <= i < |pos| => VelocityStep(vel[i], curl[i], force[i])))
  }

  /** Whatever the curl and force, a step leaves every velocity component
      in [-0.07, 0.07] and every position component in [-1.22, 1.22]. */
  lemma FieldStepBounds(pos: seq<Vec3>, vel: seq<Vec3>, curl: seq<Vec3>, force: seq<Vec3>)
    requires |pos| == |vel| == |curl| == |force|
    ensures var r := FieldStep(pos, vel, curl, force);
      forall i :: 0 <= i < |pos| ==> WithinBox(r.0[i], BoxHalf) && WithinBox(r.1[i], MaxSpeed)
  {
  }

  /** A clamp into a box pulls a point no further from a point already in
      the box than the unclamped point was. */
  lemma ClampCloser(t: real, p: real, bound: real)
    requires bound >= 0.0 && InRange(p, -bound, bound)
    ensures Abs(Clamp(t, -bound, bound) - p) <= Abs(t - p)
  {
  }

  /** A particle inside the box with a speed within the shader's bound
      moves at most 0.0014 along each axis in one step. */
  lemma ParticleDisplacement(pos: Vec3, vel: Vec3)
    requires WithinBox(pos, BoxHalf) && WithinBox(vel, MaxSpeed)
    ensures var p := PositionStep(pos, vel);
      Abs(p.x - pos.x) <= 0.0014 && Abs(p.y - pos.y) <= 0.0014 && Abs(p.z - pos.z) <= 0.0014
  {
    ClampCloser(pos.x + vel.x * StepScale, pos.x, BoxHalf);
    ClampCloser(pos.y + vel.y * StepScale, pos.y, BoxHalf);
    ClampCloser(pos.z + vel.z * StepScale, pos.z, BoxHalf);
  }

  /** With no curl and no force a velocity inside the bound is just damped
      by 0.97, and a particle inside the box away from its walls moves by
      exactly `0.02 · vel`. */
  lemma QuietStep(pos: Vec3, vel: Vec3)
    requires WithinBox(vel, MaxSpeed)
    requires WithinBox(pos, BoxHalf - 0.0014)
    ensures VelocityStep(vel, Vec3(0.0, 0.0, 0.0), Vec3(0.0, 0.0, 0.0))
         == Vec3(vel.x * Damping, vel.y * Damping, vel.z * Damping)
    ensures PositionStep(pos, vel)
         == Vec3(pos.x + vel.x * StepScale, pos.y + vel.y * StepScale, pos.z + vel.z * StepScale)
  {
    DampedWithin(vel.x);
    DampedWithin(vel.y);
    DampedWithin(vel.z);
    MovedWithin(pos.x, vel.x);
    MovedWithin(pos.y, vel.y);
    MovedWithin(pos.z, vel.z);
  }

  lemma DampedWithin(v: real)
    requires InRange(v, -MaxSpeed, MaxSpeed)
    ensures InRange(v * Damping, -MaxSpeed, MaxSpeed)
  {
    if v >= 0.0 {
      assert v * Damping <= v;
    } else {
      assert v * Damping >= v;
    }
  }

  lemma MovedWithin(p: real, v: real)
    requires InRange(v, -MaxSpeed, MaxSpeed) && InRange(p, -(BoxHalf - 0.0014), BoxHalf - 0.0014)
    ensures InRange(p + v * StepScale, -BoxHalf, BoxHalf)
  {
    assert -0.0014 <= v * StepScale <= 0.0014;
  }

  /** The two compute variables as `initGPGPU` declares them: velocity
      first, then position, each depending on `[position, velocity]`. */
  function FieldVariables(velocityShader: string, positionShader: string, velocityTexture: nat, positionTexture: nat): seq<Variable>
  {
    [Variable("textureVelocity", velocityShader, velocityTexture, Some([1, 0]), [], map[]),
     Variable("texturePosition", positionShader, positionTexture, Some([1, 0]), [], map[])]
  }

  /** On the field's wiring, in every `compute` the position pass samples
      `textureVelocity` from the velocity target on slot `cur`, the buffer
      as it was before the step, while the velocity pass of the same
      compute writes the other slot. */
  lemma PositionReadsPreviousVelocity(s: GpuState)
    requires |s.variables| == 2 && DepsInRange(s.variables) && Initialised(s.variables) && s.index <= 1
    requires s.variables[0].name == "textureVelocity" && s.variables[1].name == "texturePosition"
    requires s.variables[1].dependencies == Some([1, 0])
    ensures var t := ComputeState(s);
      var velocityPass := t.log[|s.log|];
      var positionPass := t.log[|s.log| + 1];
      velocityPass.material == ComputeMaterial(0) && positionPass.material == ComputeMaterial(1)
      && velocityPass.output == Some(TargetRef(0, Other(s.index)))
      && "textureVelocity" in positionPass.inputs
      && positionPass.inputs["textureVelocity"] == Some(TargetRef(0, s.index))
  {
    var vars := s.variables;
    assert DepNames(vars, [1, 0]) == ["texturePosition", "textureVelocity"];
    assert "texturePosition" != "textureVelocity";
    ComputeReadsPrevious(s, 0);
    ComputeReadsPrevious(s, 1);
    assert Bindable(vars, [1, 0], s.index);
    BindInputsEffects(vars[1].uniforms, vars, [1, 0], s.index);
  }

  /** The field's wiring satisfies the scheduler's requirements, and a
      successful `init` on it leaves both variables initialised. */
  lemma FieldVariablesInit(s: GpuState, velocityShader: string, positionShader: string, velocityTexture: nat, positionTexture: nat)
    requires s.variables == FieldVariables(velocityShader, positionShader, velocityTexture, positionTexture)
    ensures DepsInRange(s.variables)
    ensures var t := InitOutcome(s, true, true, 16).1;
      |t.variables| == 2 && Initialised(t.variables) && t.index == 0
      && t.variables[0].name == "textureVelocity" && t.variables[1].name == "texturePosition"
      && t.variables[1].dependencies == Some([1, 0])
  {
    assert DepsOf(s.variables[0]) == [1, 0] && DepsOf(s.variables[1]) == [1, 0];
    InitSetsUp(s, true, true, 16);
  }
}
