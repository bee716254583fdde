/**
 * One frame of the player's motion as a pure function of the previous state,
 * the frame's input, the map and the trigonometric functions, and the motion
 * over a run of frames. The Player class's update is proved to compute `Step`.
 */
module Physics {
  import opened Collision

  const PlayerMoveSpeed: real := 6.0
  const Gravity: real := 16.0
  const MaxSpeed: real := 12.0
  const JumpPower: real := 7.0
  /** Radians of view rotation per unit of mouse motion. */
  const MouseSensitivity: real := 0.0015
  /** The pitch is kept within [-PitchLimit, PitchLimit] radians. */
  const PitchLimit: real := 1.5

  /** The player's position, view rotation, velocity and ground contact. */
  datatype Kinematics = Kinematics(
    x: real, y: real, z: real,
    xrot: real, yrot: real,
    xspeed: real, yspeed: real, zspeed: real,
    onGround: bool)

  /** What a frame supplies: elapsed seconds, the keys held and the mouse motion. */
  datatype Frame = Frame(dt: real, keys: set<char>, mousedx: real, mousedy: real)

  /** Sine and cosine, left uninterpreted. */
  datatype Trig = Trig(sin: real -> real, cos: real -> real)

  /** Horizontal velocity. */
  datatype Velocity = Velocity(xspeed: real, zspeed: real)

  predicate MoveKeyHeld(keys: set<char>)
  {
    'w' in keys || 's' in keys || 'a' in keys || 'd' in keys
  }

  function Dist(a: real, b: real): real
  {
    if a < b then b - a else a - b
  }

  /** The pitch after clamping: the point of [-PitchLimit, PitchLimit] nearest to `p`. */
  function ClampPitch(p: real): (r: real)
    ensures -PitchLimit <= r <= PitchLimit
    ensures -PitchLimit <= p <= PitchLimit ==> r == p
    ensures forall q :: -PitchLimit <= q <= PitchLimit ==> Dist(r, p) <= Dist(q, p)
  {
    var p' := if p < -PitchLimit then -PitchLimit else p;
    if p' > PitchLimit then PitchLimit else p'
  }

  /** A coordinate after moving at speed `v` for `dt` seconds. */
  function Advance(p: real, v: real, dt: real): (r: real)
    ensures v == 0.0 || dt == 0.0 ==> r == p
    ensures dt > 0.0 ==> (r > p <==> v > 0.0) && (r < p <==> v < 0.0)
  {
    p + v * dt
  }

  /** Vertical speed after gravity over `dt` seconds: the larger of the free value and -MaxSpeed. */
  function FallSpeed(v: real, dt: real): (r: real)
    ensures r >= -MaxSpeed && r >= v - Gravity * dt
    ensures r == -MaxSpeed || r == v - Gravity * dt
  {
    var v' := v - Gravity * dt;
    if v' < -MaxSpeed then -MaxSpeed else v'
  }

  /** +1 when only `plus` is held, -1 when only `minus` is held, 0 otherwise. */
  function Axis(keys: set<char>, plus: char, minus: char): int
  {
    (if plus in keys then 1 else 0) - (if minus in keys then 1 else 0)
  }

  /** The velocity one movement key adds while it is held. */
  function KeyPush(k: char, sinYaw: real, cosYaw: real): Velocity
  {
    match k
    case 'w' => Velocity(-sinYaw * PlayerMoveSpeed, -cosYaw * PlayerMoveSpeed)
    case 's' => Velocity(sinYaw * PlayerMoveSpeed, cosYaw * PlayerMoveSpeed)
    case 'a' => Velocity(-cosYaw * PlayerMoveSpeed, sinYaw * PlayerMoveSpeed)
    case 'd' => Velocity(cosYaw * PlayerMoveSpeed, -sinYaw * PlayerMoveSpeed)
    case _ => Velocity(0.0, 0.0)
  }

  /** `v` with key `k`'s push added when `k` is held. */
  function AddKey(v: Velocity, keys: set<char>, k: char, sinYaw: real, cosYaw: real): Velocity
  {
    if k in keys then
      var p := KeyPush(k, sinYaw, cosYaw);
      Velocity(v.xspeed + p.xspeed, v.zspeed + p.zspeed)
    else v
  }

  /**
   * Horizontal velocity from the movement keys, accumulated from zero in the
   * order w, s, a, d. The result is MoveSpeed times the backward axis ('s'
   * minus 'w') along (sin, cos) plus the strafe axis ('d' minus 'a') along
   * (cos, -sin): opposing keys cancel and a diagonal is not normalised.
   */
  function KeyVelocity(keys: set<char>, sinYaw: real, cosYaw: real): (v: Velocity)
    ensures v.xspeed == PlayerMoveSpeed * (Axis(keys, 's', 'w') as real * sinYaw + Axis(keys, 'd', 'a') as real * cosYaw)
    ensures v.zspeed == PlayerMoveSpeed * (Axis(keys, 's', 'w') as real * cosYaw - Axis(keys, 'd', 'a') as real * sinYaw)
  {
    PushKeys(Velocity(0.0, 0.0), keys, sinYaw, cosYaw)
  }

  /** 'w' and 's' together push along the backward axis: they cancel when both are held. */
  lemma ForwardAxis(v: Velocity, keys: set<char>, sinYaw: real, cosYaw: real)
    ensures var f := Axis(keys, 's', 'w') as real;
            AddKey(AddKey(v, keys, 'w', sinYaw, cosYaw), keys, 's', sinYaw, cosYaw)
            == Velocity(v.xspeed + PlayerMoveSpeed * f * sinYaw, v.zspeed + PlayerMoveSpeed * f * cosYaw)
  {
  }

  /** 'a' and 'd' together push along the strafe axis: they cancel when both are held. */
  lemma StrafeAxis(v: Velocity, keys: set<char>, sinYaw: real, cosYaw: real)
    ensures var r := Axis(keys, 'd', 'a') as real;
            AddKey(AddKey(v, keys, 'a', sinYaw, cosYaw), keys, 'd', sinYaw, cosYaw)
            == Velocity(v.xspeed + PlayerMoveSpeed * r * cosYaw, v.zspeed - PlayerMoveSpeed * r * sinYaw)
  {
  }

  /**
   * `v` with the pushes of the held movement keys added in the order w, s, a, d:
   * MoveSpeed times the backward axis along (sin, cos) plus the strafe axis
   * along (cos, -sin) is added to `v`.
   */
  function PushKeys(v: Velocity, keys: set<char>, sinYaw: real, cosYaw: real): (r: Velocity)
    ensures r.xspeed == v.xspeed + PlayerMoveSpeed * (Axis(keys, 's', 'w') as real * sinYaw + Axis(keys, 'd', 'a') as real * cosYaw)
    ensures r.zspeed == v.zspeed + PlayerMoveSpeed * (Axis(keys, 's', 'w') as real * cosYaw - Axis(keys, 'd', 'a') as real * sinYaw)
  {
    ForwardAxis(v, keys, sinYaw, cosYaw);
    StrafeAxis(AddKey(AddKey(v, keys, 'w', sinYaw, cosYaw), keys, 's', sinYaw, cosYaw), keys, sinYaw, cosYaw);
    var v1 := AddKey(v, keys, 'w', sinYaw, cosYaw);
    var v2 := AddKey(v1, keys, 's', sinYaw, cosYaw);
    var v3 := AddKey(v2, keys, 'a', sinYaw, cosYaw);
    AddKey(v3, keys, 'd', sinYaw, cosYaw)
  }

  /**
   * Holding both keys of an opposing pair adds nothing: the velocity is that
   * of the other keys alone.
   */
  lemma OpposingKeysCancel(keys: set<char>, sinYaw: real, cosYaw: real)
    ensures 'w' in keys && 's' in keys ==>
              KeyVelocity(keys, sinYaw, cosYaw) == KeyVelocity(keys - {'w', 's'}, sinYaw, cosYaw)
    ensures 'a' in keys && 'd' in keys ==>
              KeyVelocity(keys, sinYaw, cosYaw) == KeyVelocity(keys - {'a', 'd'}, sinYaw, cosYaw)
  {
  }

  /** Vertical speed before collisions: a jump from the ground, otherwise gravity. */
  function LaunchSpeed(s: Kinematics, f: Frame): (v: real)
    ensures v >= -MaxSpeed
    ensures v == JumpPower <== ' ' in f.keys && s.onGround
    ensures !s.onGround || ' ' !in f.keys ==> v == FallSpeed(s.yspeed, f.dt)
  {
    if ' ' in f.keys && s.onGround then JumpPower else FallSpeed(s.yspeed, f.dt)
  }

  /** View rotation from the mouse, pitch clamped. */
  function Look(s: Kinematics, mousedx: real, mousedy: real): (r: Kinematics)
    ensures r.yrot == s.yrot + mousedx * MouseSensitivity
    ensures r.xrot == ClampPitch(s.xrot + mousedy * MouseSensitivity) && -PitchLimit <= r.xrot <= PitchLimit
    ensures r == s.(xrot := r.xrot, yrot := r.yrot)
  {
    s.(yrot := s.yrot + mousedx * MouseSensitivity, xrot := ClampPitch(s.xrot + mousedy * MouseSensitivity))
  }

  /** Velocity from gravity, the movement keys along the current yaw, and a jump; position untouched. */
  function Accelerate(s: Kinematics, f: Frame, trig: Trig): (a: Kinematics)
    ensures a.x == s.x && a.y == s.y && a.z == s.z && a.onGround == s.onGround
    ensures a.xrot == s.xrot && a.yrot == s.yrot
    ensures a.yspeed == LaunchSpeed(s, f)
    ensures var v := KeyVelocity(f.keys, trig.sin(s.yrot), trig.cos(s.yrot));
            a.xspeed == v.xspeed && a.zspeed == v.zspeed
  {
    var v := KeyVelocity(f.keys, trig.sin(s.yrot), trig.cos(s.yrot));
    s.(xspeed := v.xspeed, zspeed := v.zspeed, yspeed := LaunchSpeed(s, f))
  }

  /** Collision resolution: X first, then Z from the committed x, then Y from both. */
  function Resolve(a: Kinematics, dt: real, m: Map): (r: Kinematics)
    ensures r.xrot == a.xrot && r.yrot == a.yrot && r.xspeed == a.xspeed && r.zspeed == a.zspeed
    ensures var newx := Advance(a.x, a.xspeed, dt);
            (!m.collidesWithWall(BodyBox(newx, a.y, a.z)) ==> r.x == newx) &&
            (m.collidesWithWall(BodyBox(newx, a.y, a.z)) ==> r.x == a.x)
    ensures var newz := Advance(a.z, a.zspeed, dt);
            (!m.collidesWithWall(BodyBox(r.x, a.y, newz)) ==> r.z == newz) &&
            (m.collidesWithWall(BodyBox(r.x, a.y, newz)) ==> r.z == a.z)
    ensures var newy := Advance(a.y, a.yspeed, dt);
            var hit := m.collidesWithWall(BodyBox(r.x, newy, r.z));
            (!hit ==> r.y == newy && r.yspeed == a.yspeed) &&
            (hit ==> r.y == a.y && r.yspeed == 0.0) &&
            (r.onGround <==> hit && a.yspeed < 0.0)
  {
    var newx := Advance(a.x, a.xspeed, dt);
    var newy := Advance(a.y, a.yspeed, dt);
    var newz := Advance(a.z, a.zspeed, dt);
    var x := if !m.collidesWithWall(BodyBox(newx, a.y, a.z)) then newx else a.x;
    var z := if !m.collidesWithWall(BodyBox(x, a.y, newz)) then newz else a.z;
    if !m.collidesWithWall(BodyBox(x, newy, z)) then
      a.(x := x, z := z, y := newy, onGround := false)
    else
      a.(x := x, z := z, onGround := a.yspeed < 0.0, yspeed := 0.0)
  }

  /** The player's kinematic state after one frame. */
  function Step(s: Kinematics, f: Frame, m: Map, trig: Trig): (r: Kinematics)
    // view rotation
    ensures r.yrot == s.yrot + f.mousedx * MouseSensitivity
    ensures r.xrot == ClampPitch(s.xrot + f.mousedy * MouseSensitivity)
    ensures -PitchLimit <= r.xrot <= PitchLimit
    // horizontal velocity is recomputed from the keys alone
    ensures var v := KeyVelocity(f.keys, trig.sin(r.yrot), trig.cos(r.yrot));
            r.xspeed == v.xspeed && r.zspeed == v.zspeed
    ensures !MoveKeyHeld(f.keys) ==> r.xspeed == 0.0 && r.zspeed == 0.0 && r.x == s.x && r.z == s.z
    // X commits iff its box, at the old y and z, is free; Z likewise with the committed x
    ensures var newx := Advance(s.x, r.xspeed, f.dt);
            (!m.collidesWithWall(BodyBox(newx, s.y, s.z)) ==> r.x == newx) &&
            (m.collidesWithWall(BodyBox(newx, s.y, s.z)) ==> r.x == s.x)
    ensures var newz := Advance(s.z, r.zspeed, f.dt);
            (!m.collidesWithWall(BodyBox(r.x, s.y, newz)) ==> r.z == newz) &&
            (m.collidesWithWall(BodyBox(r.x, s.y, newz)) ==> r.z == s.z)
    // Y commits iff its box, at the committed x and z, is free; a blocked Y stops vertical motion
    ensures var vy := LaunchSpeed(s, f);
            var newy := Advance(s.y, vy, f.dt);
            var hit := m.collidesWithWall(BodyBox(r.x, newy, r.z));
            (!hit ==> r.y == newy && r.yspeed == vy) &&
            (hit ==> r.y == s.y && r.yspeed == 0.0) &&
            (r.onGround <==> hit && vy < 0.0)
    ensures r.yspeed >= -MaxSpeed
  {
    Resolve(Accelerate(Look(s, f.mousedx, f.mousedy), f, trig), f.dt, m)
  }

  /** The state after the frames in order. */
  function Run(s: Kinematics, frames: seq<Frame>, m: Map, trig: Trig): Kinematics
    decreases |frames|
  {
    if frames == [] then s else Run(Step(s, frames[0], m, trig), frames[1..], m, trig)
  }

  /** The sum of the frames' elapsed times. */
  function TotalTime(frames: seq<Frame>): real
    decreases |frames|
  {
    if frames == [] then 0.0 else frames[0].dt + TotalTime(frames[1..])
  }

  /** The invariant every update establishes: pitch within its limits, falling speed within its floor. */
  predicate Settled(s: Kinematics)
  {
    -PitchLimit <= s.xrot <= PitchLimit && s.yspeed >= -MaxSpeed
  }

  /** After at least one frame the state is settled, whatever it was before. */
  lemma {:induction false} RunSettles(s: Kinematics, frames: seq<Frame>, m: Map, trig: Trig)
    requires frames != []
    ensures Settled(Run(s, frames, m, trig))
    decreases |frames|
  {
    var s' := Step(s, frames[0], m, trig);
    if frames[1..] != [] {
      RunSettles(s', frames[1..], m, trig);
    } else {
      assert Run(s, frames, m, trig) == Run(s', [], m, trig) == s';
    }
  }

  /** With no movement key held in any frame, the player never moves horizontally. */
  lemma {:induction false} IdleKeepsHorizontal(s: Kinematics, frames: seq<Frame>, m: Map, trig: Trig)
    requires forall i | 0 <= i < |frames| :: !MoveKeyHeld(frames[i].keys)
    ensures Run(s, frames, m, trig).x == s.x && Run(s, frames, m, trig).z == s.z
    decreases |frames|
  {
    if frames != [] {
      var s' := Step(s, frames[0], m, trig);
      assert !MoveKeyHeld(frames[0].keys);
      IdleKeepsHorizontal(s', frames[1..], m, trig);
    }
  }

  /** Gravity over two consecutive intervals is gravity over their sum. */
  lemma FallSpeedCompose(v: real, a: real, b: real)
    requires b >= 0.0
    ensures FallSpeed(FallSpeed(v, a), b) == FallSpeed(v, a + b)
  {
  }

  /** A map in which no box touches a wall. */
  ghost predicate Open(m: Map)
  {
    forall b :: !m.collidesWithWall(b)
  }

  /**
   * Falling through open space from the air: the player never lands, never
   * jumps, and the vertical speed after the frames is gravity over their total
   * time, floored at -MaxSpeed.
   */
  lemma {:induction false} FreeFall(s: Kinematics, frames: seq<Frame>, m: Map, trig: Trig)
    requires Open(m) && !s.onGround && frames != []
    requires forall i | 0 <= i < |frames| :: frames[i].dt >= 0.0
    ensures !Run(s, frames, m, trig).onGround
    ensures Run(s, frames, m, trig).yspeed == FallSpeed(s.yspeed, TotalTime(frames))
    decreases |frames|
  {
    var f := frames[0];
    var s' := Step(s, f, m, trig);
    assert !s'.onGround && s'.yspeed == FallSpeed(s.yspeed, f.dt) by {
      var r := Step(s, f, m, trig);
      assert !m.collidesWithWall(BodyBox(r.x, Advance(s.y, LaunchSpeed(s, f), f.dt), r.z));
    }
    if frames[1..] == [] {
      assert Run(s, frames, m, trig) == Run(s', [], m, trig) == s';
      assert TotalTime(frames) == f.dt + TotalTime([]);
    } else {
      FreeFall(s', frames[1..], m, trig);
      assert TotalTime(frames[1..]) >= 0.0 by { TotalTimeNonNegative(frames[1..]); }
      FallSpeedCompose(s.yspeed, f.dt, TotalTime(frames[1..]));
    }
  }

  lemma {:induction false} TotalTimeNonNegative(frames: seq<Frame>)
    requires forall i | 0 <= i < |frames| :: frames[i].dt >= 0.0
    ensures TotalTime(frames) >= 0.0
    decreases |frames|
  {
    if frames != [] {
      TotalTimeNonNegative(frames[1..]);
    }
  }

  /**
   * Landing: standing at the origin moving up at 5, one second of gravity
   * gives -11; when the map blocks the box at that height the player stays
   * put, stops and is on the ground.
   */
  lemma Landing(m: Map, trig: Trig, keys: set<char>, s: Kinematics)
    requires s.x == 0.0 && s.y == 0.0 && s.z == 0.0 && s.yspeed == 5.0 && !s.onGround
    requires !MoveKeyHeld(keys)
    requires m.collidesWithWall(BodyBox(0.0, -11.0, 0.0))
    ensures var r := Step(s, Frame(1.0, keys, 0.0, 0.0), m, trig);
            r.y == 0.0 && r.yspeed == 0.0 && r.onGround
  {
  }
}
