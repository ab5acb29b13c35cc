/**
 * The per-frame scene and camera update of the main loop in src/Main.cpp.
 * Single-precision arithmetic is modelled over reals, and sinf/cosf are
 * passed in as functions, since the properties below hold whatever they return.
 */
module Scene {

  /** M_PI. */
  const PI: real := 3.14159265358979323846

  /** One row of the literal sphere table: anchor x, bounce base y, anchor z, radius. */
  datatype SphereData = SphereData(x: real, y: real, z: real, radius: real)

  const SphereTable: seq<SphereData> := [
    SphereData(-0.3, -0.8, 3.0, 0.6),
    SphereData(0.9, -1.4, 3.5, 0.35),
    SphereData(0.7, -0.45, 2.5, 0.4),
    SphereData(-0.5, -0.3, 1.5, 0.25),
    SphereData(1.0, -0.2, 1.5, 0.2),
    SphereData(-0.1, -0.2, 1.25, 0.2)
  ]

  /**
   * The used columns of one row `c[k]`: the rotated world position
   * (c[k][0], c[k][1], c[k][2]), the bounce velocity c[k][3] and the fixed
   * anchor (c[k][4], c[k][5]). The height c[k][1] is negative above the floor.
   */
  datatype Sphere = Sphere(x: real, y: real, z: real, v: real, x0: real, z0: real)

  /** The key states the update reads, each 0 or 1 in the program. */
  datatype Keys = Keys(w: bool, a: bool, s: bool, d: bool, ctrl: bool, space: bool)

  function Bit(b: bool): int { if b then 1 else 0 }

  /** Whether the bounce candidate height of a sphere would sink it below the floor. */
  predicate Sinks(s: Sphere, radius: real, dt: real)
  {
    var v := s.v + 0.01 * dt / 5.0;
    -(s.y + v * dt / 5.0) < radius
  }

  /**
   * One bounce step of a sphere: the velocity grows, the height moves by it,
   * and a sphere that would sink is put back exactly on the floor with
   * velocity -0.2. Nothing but the height and the velocity changes.
   */
  function Bounce(s: Sphere, radius: real, dt: real): (t: Sphere)
    ensures -t.y >= radius
    ensures t == s.(y := t.y, v := t.v)
    ensures Sinks(s, radius, dt) ==> t.v == -0.2 && t.y == -radius
    ensures !Sinks(s, radius, dt) ==> t.v == s.v + 0.01 * dt / 5.0 && t.y == s.y + t.v * dt / 5.0
  {
    var v := s.v + 0.01 * dt / 5.0;
    var ck := s.y + v * dt / 5.0;
    if -ck < radius then s.(y := -radius, v := -0.2) else s.(y := ck, v := v)
  }

  /**
   * Yaw after the single wrap step: shifted by 2*PI once if it left
   * [-PI, PI]; a value in [-3*PI, 3*PI] always lands in [-PI, PI].
   */
  function WrapYaw(yaw: real): (w: real)
    ensures -PI <= yaw <= PI ==> w == yaw
    ensures yaw < -PI ==> w == yaw + 2.0 * PI
    ensures yaw > PI ==> w == yaw - 2.0 * PI
    ensures -3.0 * PI <= yaw <= 3.0 * PI ==> -PI <= w <= PI
  {
    if yaw < -PI then yaw + 2.0 * PI
    else if yaw > PI then yaw - 2.0 * PI
    else yaw
  }

  /** A yaw in [-PI, PI] turned by at most 2*PI stays in [-PI, PI] after the wrap. */
  lemma YawStaysInRange(yaw: real, mouseX: real)
    requires -PI <= yaw <= PI
    requires -2.0 * PI <= mouseX * 0.01 <= 2.0 * PI
    ensures -PI <= WrapYaw(yaw + mouseX * 0.01) <= PI
  {
  }

  /** The float-to-int conversion of C++: truncation toward zero. */
  function Truncate(x: real): (n: int)
    ensures 0.0 <= x ==> n as real <= x < n as real + 1.0
    ensures x < 0.0 ==> n as real - 1.0 < x <= n as real
  {
    if x >= 0.0 then x.Floor else -((-x).Floor)
  }

  /** The scan offset clamp to [-600, 1000]. */
  function ClampScan(h: int): (c: int)
    ensures -600 <= c <= 1000
    ensures -600 <= h <= 1000 ==> c == h
    ensures h > 1000 ==> c == 1000
    ensures h < -600 ==> c == -600
  {
    if h > 1000 then 1000 else if h < -600 then -600 else h
  }

  /** The number of movement keys (W, A, S, D) held. */
  function MoveKeyCount(k: Keys): (n: int)
    ensures 0 <= n <= 4
  {
    Bit(k.a) + Bit(k.d) + Bit(k.w) + Bit(k.s)
  }

  /** The movement heading in degrees before the yaw is subtracted. */
  function HeadingDegrees(k: Keys): (deg: int)
    ensures k == Keys(true, false, false, false, k.ctrl, k.space) ==> deg == 0
    ensures k == Keys(false, false, true, false, k.ctrl, k.space) ==> deg == 180
    ensures k == Keys(false, true, false, false, k.ctrl, k.space) ==> deg == 90
    ensures k == Keys(false, false, false, true, k.ctrl, k.space) ==> deg == 270
  {
    -(Bit(k.a) * 90 + Bit(k.d) * -90 + Bit(k.w) * 180 - 180)
  }

  /** The heading in radians, relative to the camera yaw. */
  function GoAngle(k: Keys, yaw: real): real
  {
    (HeadingDegrees(k) as real) * (PI / 180.0) - yaw
  }

  /** The step length: 0.05 * dt with exactly one movement key held, else 0. */
  function Speed(k: Keys, dt: real): (go: real)
    ensures MoveKeyCount(k) == 1 ==> go == 0.05 * dt
    ensures MoveKeyCount(k) != 1 ==> go == 0.0
  {
    if MoveKeyCount(k) == 1 then (MoveKeyCount(k) as real) / 20.0 * dt else 0.0
  }

  /**
   * With exactly one movement key held, the camera moves a distance of
   * exactly 0.05 * dt, provided the sine and cosine passed in satisfy
   * sin(a)^2 + cos(a)^2 = 1 at the heading a.
   */
  lemma StepLength(k: Keys, dt: real, yaw: real, sin: real -> real, cos: real -> real)
    requires MoveKeyCount(k) == 1
    requires sin(GoAngle(k, yaw)) * sin(GoAngle(k, yaw)) + cos(GoAngle(k, yaw)) * cos(GoAngle(k, yaw)) == 1.0
    ensures var dx, dz := sin(GoAngle(k, yaw)) * Speed(k, dt), -cos(GoAngle(k, yaw)) * Speed(k, dt);
            dx * dx + dz * dz == (0.05 * dt) * (0.05 * dt)
  {
  }

  /** The camera height limit: never above -0.1 (more negative is higher). */
  function Ceiling(y: real): (c: real)
    ensures c <= -0.1
    ensures y <= -0.1 ==> c == y
    ensures y > -0.1 ==> c == -0.1
  {
    if y > -0.1 then -0.1 else y
  }

  /**
   * The mutable state of the main loop: the sphere rows `c`, the radii `r`
   * and squared radii `q`, the camera `me` = (x, y, z, yaw), the scan offset
   * `h`, and the mouse motion gathered since the last frame.
   */
  class SceneState {
    const r: seq<real>
    const q: seq<real>
    var c: array<Sphere>
    var me: array<real>
    var h: int
    var mouseX: real
    var mouseY: real

    ghost predicate Valid()
      reads this
    {
      c.Length == |r| == |q| && me.Length == 4 &&
      forall k :: 0 <= k < |r| ==> q[k] == r[k] * r[k]
    }

    /**
     * Builds the scene from the sphere table; `rnd[k]` stands for the random
     * draw in [0, 1) that sets sphere k's starting height.
     */
    constructor (scrh: int, rnd: seq<real>)
      requires scrh > 0 && |rnd| == |SphereTable|
      ensures Valid() && fresh(c) && fresh(me)
      ensures c.Length == |SphereTable|
      ensures forall k :: 0 <= k < |SphereTable| ==>
        r[k] == SphereTable[k].radius &&
        c[k] == Sphere(0.0, -(SphereTable[k].y + 0.3 + 2.0 * rnd[k]), 0.0, 0.1, SphereTable[k].x, SphereTable[k].z)
      ensures me[..] == [SphereTable[0].x, -0.2, -3.0, PI]
      ensures h == scrh / 4 && mouseX == 0.0 && mouseY == 0.0
    {
      var n := |SphereTable|;
      r := seq(n, k requires 0 <= k < n => SphereTable[k].radius);
      q := seq(n, k requires 0 <= k < n => SphereTable[k].radius * SphereTable[k].radius);
      var rows := new Sphere[n](_ => Sphere(0.0, 0.0, 0.0, 0.0, 0.0, 0.0));
      var k := 0;
      while k < n
        invariant 0 <= k <= n
        invariant forall i :: 0 <= i < k ==>
          rows[i] == Sphere(0.0, -(SphereTable[i].y + 0.3 + 2.0 * rnd[i]), 0.0, 0.1, SphereTable[i].x, SphereTable[i].z)
      {
        var data := SphereTable[k];
        rows[k] := Sphere(0.0, -(data.y + 0.3 + 2.0 * rnd[k]), 0.0, 0.1, data.x, data.z);
        k := k + 1;
      }
      c := rows;
      me := new real[] [rows[0].x0, -0.2, -3.0, PI];
      h := scrh / 4;
      mouseX, mouseY := 0.0, 0.0;
    }

    /** Adds one relative mouse motion event to the motion gathered this frame. */
    method AccumulateMouse(xrel: int, yrel: int)
      modifies this
      ensures mouseX == old(mouseX) + xrel as real && mouseY == old(mouseY) + yrel as real
      ensures h == old(h) && c == old(c) && me == old(me)
    {
      mouseX := mouseX + xrel as real;
      mouseY := mouseY + yrel as real;
    }

    /** The bounce step, applied to every sphere independently. */
    method BounceSpheres(dt: real)
      requires Valid()
      modifies c
      ensures forall k :: 0 <= k < c.Length ==> c[k] == Bounce(old(c[k]), r[k], dt)
      ensures forall k :: 0 <= k < c.Length ==> -c[k].y >= r[k]
    {
      var k := 0;
      while k < c.Length
        invariant 0 <= k <= c.Length
        invariant forall i :: 0 <= i < k ==> c[i] == Bounce(old(c[i]), r[i], dt)
        invariant forall i :: k <= i < c.Length ==> c[i] == old(c[i])
      {
        var v := c[k].v + 0.01 * dt / 5.0;
        var ck := c[k].y + v * dt / 5.0;
        if -ck < r[k] {
          v := -0.2;
          ck := -r[k];
        }
        c[k] := c[k].(y := ck, v := v);
        k := k + 1;
      }
    }

    /** Turns the camera by the gathered horizontal motion and wraps the yaw once. */
    method UpdateYaw()
      requires Valid()
      modifies me
      ensures me[3] == WrapYaw(old(me[3]) + mouseX * 0.01)
      ensures -PI <= old(me[3]) <= PI && -2.0 * PI <= mouseX * 0.01 <= 2.0 * PI ==> -PI <= me[3] <= PI
      ensures me[0] == old(me[0]) && me[1] == old(me[1]) && me[2] == old(me[2])
    {
      me[3] := me[3] + mouseX * 0.01;
      if me[3] < -PI {
        me[3] := me[3] + 2.0 * PI;
      } else if me[3] > PI {
        me[3] := me[3] - 2.0 * PI;
      }
    }

    /** Moves the scan offset by the vertical motion, truncated to int, and clamps it. */
    method UpdateScanOffset()
      modifies this`h
      ensures h == ClampScan(Truncate(old(h) as real + mouseY * 6.0))
      ensures -600 <= h <= 1000
    {
      h := Truncate(h as real + mouseY * 6.0);
      if h > 1000 {
        h := 1000;
      } else if h < -600 {
        h := -600;
      }
    }

    /** Marks the gathered mouse motion as consumed. */
    method ResetMouse()
      modifies this`mouseX, this`mouseY
      ensures mouseX == 0.0 && mouseY == 0.0
    {
      mouseX := 0.0;
      mouseY := 0.0;
    }

    /**
     * Walks the camera along the heading of the single movement key held;
     * with none or several held, x and z stay where they are.
     */
    method Move(k: Keys, dt: real, sin: real -> real, cos: real -> real)
      requires Valid()
      modifies me
      ensures me[0] == old(me[0]) + sin(GoAngle(k, old(me[3]))) * Speed(k, dt)
      ensures me[2] == old(me[2]) - cos(GoAngle(k, old(me[3]))) * Speed(k, dt)
      ensures MoveKeyCount(k) != 1 ==> me[0] == old(me[0]) && me[2] == old(me[2])
      ensures me[1] == old(me[1]) && me[3] == old(me[3])
    {
      var goAng := -(Bit(k.a) * 90 + Bit(k.d) * -90 + Bit(k.w) * 180 - 180) as real * (PI / 180.0) - me[3];
      var go := 0.0;
      var wasd := Bit(k.a) + Bit(k.d) + Bit(k.w) + Bit(k.s);
      if wasd == 1 {
        go := wasd as real / 20.0 * dt;
      }
      me[0] := me[0] + sin(goAng) * go;
      me[2] := me[2] - cos(goAng) * go;
    }

    /** Raises or lowers the camera and keeps it at or below the ceiling. */
    method Climb(k: Keys, dt: real)
      requires Valid()
      modifies me
      ensures me[1] == Ceiling(old(me[1]) + (Bit(k.ctrl) - Bit(k.space)) as real * 0.03 * dt)
      ensures me[1] <= -0.1
      ensures me[0] == old(me[0]) && me[2] == old(me[2]) && me[3] == old(me[3])
    {
      me[1] := me[1] + (Bit(k.ctrl) - Bit(k.space)) as real * 0.03 * dt;
      if me[1] > -0.1 {
        me[1] := -0.1;
      }
    }

    /** The whole update of one frame, in the program's order. */
    method UpdateFrame(k: Keys, dt: real, sin: real -> real, cos: real -> real)
      requires Valid()
      modifies c, me, this`h, this`mouseX, this`mouseY
      ensures Valid()
      ensures forall i :: 0 <= i < c.Length ==> c[i] == Bounce(old(c[i]), r[i], dt) && -c[i].y >= r[i]
      ensures me[3] == WrapYaw(old(me[3]) + old(mouseX) * 0.01)
      ensures h == ClampScan(Truncate(old(h) as real + old(mouseY) * 6.0)) && -600 <= h <= 1000
      ensures mouseX == 0.0 && mouseY == 0.0
      ensures me[0] == old(me[0]) + sin(GoAngle(k, me[3])) * Speed(k, dt)
      ensures me[2] == old(me[2]) - cos(GoAngle(k, me[3])) * Speed(k, dt)
      ensures MoveKeyCount(k) != 1 ==> me[0] == old(me[0]) && me[2] == old(me[2])
      ensures me[1] == Ceiling(old(me[1]) + (Bit(k.ctrl) - Bit(k.space)) as real * 0.03 * dt)
    {
      BounceSpheres(dt);
      UpdateYaw();
      UpdateScanOffset();
      ResetMouse();
      Move(k, dt, sin, cos);
      Climb(k, dt);
    }
  }
}
