/**
 * The player object: kinematic state updated in place once per frame, and the
 * two shot/portal slots it owns (slot 0 blue, slot 1 orange).
 */
module Players {
  import opened Wrappers
  import opened Collision
  import opened Physics
  import opened Slots

  /** Mouse button codes as the windowing toolkit reports them. */
  const LeftButton: int := 0
  const MiddleButton: int := 1
  const RightButton: int := 2

  class Player {
    var x: real
    var y: real
    var z: real
    var xrot: real
    var yrot: real
    var xspeed: real
    var yspeed: real
    var zspeed: real
    var onGround: bool
    /** Slot i's shot always places slot i's portal. */
    const shots: array<Shot>
    const portals: array<Portal>

    /** Exactly two slots of each, none shared. */
    ghost predicate Valid()
      reads this, shots, portals
    {
      shots.Length == 2 && portals.Length == 2 &&
      shots[0] != shots[1] && portals[0] != portals[1]
    }

    /** The kinematic part of the player's state. */
    function State(): Kinematics
      reads this
    {
      Kinematics(x, y, z, xrot, yrot, xspeed, yspeed, zspeed, onGround)
    }

    /**
     * A player at the origin, looking straight ahead, airborne, with the two
     * portal templates set up. The speeds start arbitrary.
     */
    constructor ()
      ensures Valid()
      ensures fresh(shots) && fresh(portals) && fresh(shots[0]) && fresh(shots[1])
      ensures fresh(portals[0]) && fresh(portals[1])
      ensures x == 0.0 && y == 0.0 && z == 0.0
      ensures xrot == 0.0 && yrot == 0.0 && !onGround
    {
      x, y, z := 0.0, 0.0, 0.0;
      xrot, yrot := 0.0, 0.0;
      xspeed, yspeed, zspeed := *, *, *;
      onGround := false;
      var s0 := new Shot();
      var s1 := new Shot();
      var p0 := new Portal();
      var p1 := new Portal();
      shots := new Shot[] [s0, s1];
      portals := new Portal[] [p0, p1];
      new;
      p0.Set(1.75, 1.45, 0.0, Front);
      p1.Set(0.0, 2.45, 1.75, Right);
    }

    /** Places the player at (x0, y0, z0), airborne; rotation and speeds are kept. */
    method Create(x0: real, y0: real, z0: real)
      requires Valid()
      modifies this
      ensures Valid()
      ensures State() == old(State()).(x := x0, y := y0, z := z0, onGround := false)
    {
      x := x0;
      y := y0;
      z := z0;
      onGround := false;
    }

    /** Slot i took no part in the frame: its shot was idle and not inside a wall. */
    twostate predicate SlotIdle(m: Map, i: int)
      requires 0 <= i < 2
      requires old(Valid())
      reads this, shots
    {
      !old(shots[i].active) &&
      m.pointInWall(old(shots[i].x), old(shots[i].y), old(shots[i].z)).None?
    }

    /**
     * One frame: look, accelerate, resolve collisions X, Z, Y against the map,
     * then advance each active shot and hand a shot inside a wall over to its
     * portal.
     */
    method Update(dt: real, keys: set<char>, mousedx: real, mousedy: real, m: Map, trig: Trig)
      requires Valid()
      modifies this, shots[0], shots[1], portals[0], portals[1]
      ensures Valid()
      ensures State() == Step(old(State()), Frame(dt, keys, mousedx, mousedy), m, trig)
      ensures -PitchLimit <= xrot <= PitchLimit && yspeed >= -MaxSpeed
      ensures SlotIdle(m, 0) ==> unchanged(shots[0], portals[0])
      ensures SlotIdle(m, 1) ==> unchanged(shots[1], portals[1])
    {
      Turn(mousedx, mousedy);
      Accelerate(Frame(dt, keys, mousedx, mousedy), trig);
      Move(dt, m);
      UpdateShots(dt, m);
    }

    /** View rotation from the mouse, pitch clamped. */
    method Turn(mousedx: real, mousedy: real)
      modifies this
      ensures State() == Look(old(State()), mousedx, mousedy)
    {
      yrot := yrot + mousedx * MouseSensitivity;
      xrot := xrot + mousedy * MouseSensitivity;
      if xrot < -PitchLimit { xrot := -PitchLimit; }
      if xrot > PitchLimit { xrot := PitchLimit; }
    }

    /** Velocity from gravity, the movement keys along the current yaw, and a jump. */
    method Accelerate(f: Frame, trig: Trig)
      modifies this
      ensures State() == Physics.Accelerate(old(State()), f, trig)
    {
      ghost var s0 := State();
      xspeed, zspeed := 0.0, 0.0;
      yspeed := yspeed - Gravity * f.dt;
      if yspeed < -MaxSpeed { yspeed := -MaxSpeed; }
      Walk(f.keys, trig);
      assert Velocity(xspeed, zspeed) == KeyVelocity(f.keys, trig.sin(yrot), trig.cos(yrot));
      if ' ' in f.keys && onGround {
        yspeed := JumpPower;
      }
      assert yspeed == LaunchSpeed(s0, f);
    }

    /** Adds the push of each held movement key, in the order w, s, a, d, along the current yaw. */
    method Walk(keys: set<char>, trig: Trig)
      modifies this`xspeed, this`zspeed
      ensures Velocity(xspeed, zspeed) == PushKeys(old(Velocity(xspeed, zspeed)), keys, trig.sin(yrot), trig.cos(yrot))
    {
      ghost var sinYaw, cosYaw := trig.sin(yrot), trig.cos(yrot);
      ghost var v := Velocity(xspeed, zspeed);
      if 'w' in keys {
        zspeed := zspeed - trig.cos(yrot) * PlayerMoveSpeed;
        xspeed := xspeed - trig.sin(yrot) * PlayerMoveSpeed;
      }
      v := AddKey(v, keys, 'w', sinYaw, cosYaw);
      assert Velocity(xspeed, zspeed) == v;
      if 's' in keys {
        zspeed := zspeed + trig.cos(yrot) * PlayerMoveSpeed;
        xspeed := xspeed + trig.sin(yrot) * PlayerMoveSpeed;
      }
      v := AddKey(v, keys, 's', sinYaw, cosYaw);
      assert Velocity(xspeed, zspeed) == v;
      if 'a' in keys {
        xspeed := xspeed - trig.cos(yrot) * PlayerMoveSpeed;
        zspeed := zspeed + trig.sin(yrot) * PlayerMoveSpeed;
      }
      v := AddKey(v, keys, 'a', sinYaw, cosYaw);
      assert Velocity(xspeed, zspeed) == v;
      if 'd' in keys {
        xspeed := xspeed + trig.cos(yrot) * PlayerMoveSpeed;
        zspeed := zspeed - trig.sin(yrot) * PlayerMoveSpeed;
      }
    }

    /** Collision resolution one axis at a time: X, then Z at the committed x, then Y at both. */
    method Move(dt: real, m: Map)
      modifies this
      ensures State() == Resolve(old(State()), dt, m)
    {
      var newx := Advance(x, xspeed, dt);
      var newy := Advance(y, yspeed, dt);
      var newz := Advance(z, zspeed, dt);
      if !m.collidesWithWall(BodyBox(newx, y, z)) {
        x := newx;
      }
      if !m.collidesWithWall(BodyBox(x, y, newz)) {
        z := newz;
      }
      onGround := false;
      if !m.collidesWithWall(BodyBox(x, newy, z)) {
        y := newy;
      } else {
        if yspeed < 0.0 {
          onGround := true;
        }
        yspeed := 0.0;
      }
    }

    /** Advances each active shot and places its portal when the shot is inside a wall. */
    method UpdateShots(dt: real, m: Map)
      requires Valid()
      modifies shots[0], shots[1], portals[0], portals[1]
      ensures Valid()
      ensures SlotIdle(m, 0) ==> unchanged(shots[0], portals[0])
      ensures SlotIdle(m, 1) ==> unchanged(shots[1], portals[1])
    {
      for i := 0 to 2
        invariant i <= 0 ==> unchanged(shots[0], portals[0])
        invariant i <= 1 ==> unchanged(shots[1], portals[1])
        invariant 0 < i && SlotIdle(m, 0) ==> unchanged(shots[0], portals[0])
        invariant 1 < i && SlotIdle(m, 1) ==> unchanged(shots[1], portals[1])
      {
        if shots[i].active {
          shots[i].Update(dt);
        }
        var wall := m.pointInWall(shots[i].x, shots[i].y, shots[i].z);
        if wall.Some? {
          shots[i].PlacePortal(wall.value, portals[i]);
        }
      }
    }

    /** Left fires slot 0's shot, right fires slot 1's, middle switches both portals off. */
    method MousePressed(button: int)
      requires Valid()
      modifies shots[0], shots[1], portals[0], portals[1]
      ensures Valid()
      ensures button == LeftButton ==> unchanged(shots[1], portals[0], portals[1])
      ensures button == RightButton ==> unchanged(shots[0], portals[0], portals[1])
      ensures button == MiddleButton ==>
                unchanged(shots[0], shots[1]) &&
                !portals[0].active && !portals[1].active && !PortalsActive() &&
                portals[0].Placement() == old(portals[0].Placement()) &&
                portals[1].Placement() == old(portals[1].Placement())
      ensures button != LeftButton && button != RightButton && button != MiddleButton ==>
                unchanged(shots[0], shots[1], portals[0], portals[1])
    {
      if button == LeftButton {
        shots[0].Shoot(0, x, y, z, xrot, yrot);
      } else if button == RightButton {
        shots[1].Shoot(1, x, y, z, xrot, yrot);
      } else if button == MiddleButton {
        portals[0].active := false;
        portals[1].active := false;
      }
    }

    /** Whether every portal slot holds an active portal. */
    function PortalsActive(): (r: bool)
      requires Valid()
      reads this, shots, portals, portals[..]
      ensures r <==> forall i | 0 <= i < portals.Length :: portals[i].active
    {
      portals[0].active && portals[1].active
    }
  }
}
