/** The scene's animation state and the one draw call it issues per frame.

    The angle `t` is a whole number of degrees that advances by one on every
    `step` and wraps at a full turn.  The source computes `(t + 1) % 360` with
    Python's `%`, which for a positive modulus agrees with Dafny's Euclidean `%`
    on every integer, so the same expression is used here.
 */
module Animation {

  /** Degrees in a full turn: the modulus of the animation angle. */
  const FullTurn: int := 360

  /** The angle after one `step` from angle `t`. */
  function NextAngle(t: int): (r: int)
    ensures 0 <= r < FullTurn
    ensures 0 <= t < FullTurn - 1 ==> r == t + 1
    ensures t == FullTurn - 1 ==> r == 0
  {
    (t + 1) % FullTurn
  }

  /** The angle after `k` steps from angle `t0`: `NextAngle` applied `k` times. */
  function AngleAfter(t0: int, k: nat): int
    decreases k
  {
    if k == 0 then t0 else NextAngle(AngleAfter(t0, k - 1))
  }

  /** One step from `x % FullTurn` lands where one step from `x` does. */
  lemma {:induction false} NextAngleOfResidue(x: int)
    ensures NextAngle(x % FullTurn) == (x + 1) % FullTurn
  {
    var q := x / FullTurn;
    var m := x % FullTurn;
    assert x == q * FullTurn + m;
    assert x + 1 == q * FullTurn + (m + 1);
    if m + 1 == FullTurn {
      assert x + 1 == (q + 1) * FullTurn;
    }
  }

  /** Adding a full turn does not change the residue. */
  lemma {:induction false} ResidueOfTurn(x: int)
    ensures (x + FullTurn) % FullTurn == x % FullTurn
  {
    var q, m := x / FullTurn, x % FullTurn;
    assert x + FullTurn == (q + 1) * FullTurn + m;
  }

  /** From an angle in range, `k` steps land on `(t0 + k) % 360`. */
  lemma {:induction false} AngleAfterIsOffset(t0: int, k: nat)
    requires 0 <= t0 < FullTurn
    ensures AngleAfter(t0, k) == (t0 + k) % FullTurn
  {
    if k > 0 {
      AngleAfterIsOffset(t0, k - 1);
      NextAngleOfResidue(t0 + k - 1);
    }
  }

  /** From an angle in range, `k` steps come back to it exactly when `k` is a
      whole number of turns: 360 steps from 0 give 0, while 361 give 1. */
  lemma {:induction false} StepsReturnIff(t0: int, k: nat)
    requires 0 <= t0 < FullTurn
    ensures AngleAfter(t0, k) == t0 <==> k % FullTurn == 0
  {
    AngleAfterIsOffset(t0, k);
    var q, m := k / FullTurn, k % FullTurn;
    assert t0 + k == q * FullTurn + (t0 + m);
    if t0 + m < FullTurn {
      assert (t0 + k) % FullTurn == t0 + m;
    } else {
      assert t0 + k == (q + 1) * FullTurn + (t0 + m - FullTurn);
      assert (t0 + k) % FullTurn == t0 + m - FullTurn;
    }
  }

  /** Stepping is periodic: 360 more steps never change where the angle ends. */
  lemma {:induction false} AngleAfterPeriodic(t0: int, k: nat)
    requires 0 <= t0 < FullTurn
    ensures AngleAfter(t0, k + FullTurn) == AngleAfter(t0, k)
  {
    AngleAfterIsOffset(t0, k);
    AngleAfterIsOffset(t0, k + FullTurn);
    ResidueOfTurn(t0 + k);
  }

  /** `j` steps followed by `k` steps are `j + k` steps. */
  lemma {:induction false} AngleAfterCompose(t0: int, j: nat, k: nat)
    ensures AngleAfter(AngleAfter(t0, j), k) == AngleAfter(t0, j + k)
  {
    if k > 0 {
      AngleAfterCompose(t0, j, k - 1);
    }
  }

  /** How the quad is drawn: the source always draws a triangle strip. */
  datatype DrawMode = TriangleStrip

  /** The parameters of the perspective projection handed to the scene. */
  datatype Projection = Perspective(fovDegrees: real, aspect: real, zNear: real, zFar: real)

  /** A point or direction in world space. */
  datatype Vec3 = Vec3(x: real, y: real, z: real)

  /** The parameters of the view (camera) matrix handed to the scene. */
  datatype View = LookAt(eye: Vec3, center: Vec3, up: Vec3)

  /** What one `Scene.render` submits: the uniforms it sets and the draw call it issues. */
  datatype DrawCall = DrawCall(
    projection: Projection,
    view: View,
    thetaDegrees: int,
    showCircle: bool,
    textureUnit: nat,
    mode: DrawMode,
    first: nat,
    count: nat)

  /** The OpenGL scene: a textured quad whose animation angle advances each frame. */
  class Scene {
    /** Animation angle in degrees. */
    var t: int
    /** Toggle handed to the fragment shader; the source never changes it after construction. */
    const showCircle: bool

    ghost predicate Valid()
      reads this
    {
      0 <= t < FullTurn
    }

    /** The animation state a new scene starts from. */
    constructor ()
      ensures Valid()
      ensures t == 0 && !showCircle
    {
      t := 0;
      showCircle := false;
    }

    /** Sets the uniforms and draws the quad; changes no animation state. */
    method Render(projection: Projection, view: View) returns (d: DrawCall)
      ensures d.projection == projection && d.view == view
      ensures d.thetaDegrees == t && d.showCircle == showCircle
      ensures d.textureUnit == 0
      ensures d.mode == TriangleStrip && d.first == 0 && d.count == 4
    {
      d := DrawCall(projection, view, t, showCircle, 0, TriangleStrip, 0, 4);
    }

    /** Advances the animation by one degree, wrapping at a full turn. */
    method Step()
      modifies this`t
      ensures Valid()
      ensures t == NextAngle(old(t))
    {
      t := (t + 1) % FullTurn;
    }
  }
}
