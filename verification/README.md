# Player physics and portal slots

A model of the per-frame state machine of the player in a first-person
"portal" game demo (`Player.cpp`). Each frame the player turns with the mouse
(pitch clamped to ±1.5 rad), gets its horizontal velocity recomputed from the
movement keys along the current yaw, falls under gravity down to a terminal
speed, may jump when standing on the ground, and then moves one axis at a time
— X, then Z at the committed x, then Y at the committed x and z — committing a
coordinate only when the map reports that the player's box there does not
touch a wall. Last, each of the two shots advances and, once inside a wall,
hands over to its portal. Mouse buttons fire a shot or switch both portals off.

Layout:

- `collision.dfy` (`Collision`): the `Box` value, the player's body box, and the
  map as an oracle: `collidesWithWall(Box)` and `pointInWall(x, y, z)` answering
  an optional wall box.
- `physics.dfy` (`Physics`): the constants, the kinematic state as a value, one
  frame as the pure function `Step` (composed of `Look`, `Accelerate`,
  `Resolve`), a run of frames `Run`, and the lemmas about them.
- `slots.dfy` (`Slots`): the `Shot` and `Portal` objects; their own code is not
  part of this model, so their operations are abstract — each may change only
  its own object (and, for `PlacePortal`, the portal it is given), to values
  left arbitrary.
- `player.dfy` (`Players`): the `Player` class with the source's fields, updated
  in place. `Update` is proved to leave `State()` equal to `Step` of the old
  state; its phases `Turn`, `Accelerate`, `Walk`, `Move` and `UpdateShots`
  run the source's statements in the source's order.
- `wrappers.dfy`: `Option`.

Collaborators become parameters: `sin` and `cos` are the two functions of a
`Trig` value, left uninterpreted; the map is a `Map` value of two functions;
the key-state array becomes the set of held keys. Coordinates and speeds are
`real`. Mouse button codes are the toolkit's usual ones: left 0, middle 1,
right 2.

## Model

| member | source | states |
|---|---|---|
| Collision.BodyBox | Player.cpp:69-79 | the candidate box is 1 wide and deep, 1.8 tall, feet at the given height and centred on the given x and z |
| Physics.ClampPitch | Player.cpp:33-35 | the clamped pitch lies in [-1.5, 1.5], equals the input when in range, and is the point of that range nearest the input |
| Physics.FallSpeed | Player.cpp:40-41 | vertical speed after gravity is the larger of `old - 16*dt` and -12 |
| Physics.KeyVelocity | Player.cpp:43-59 | horizontal velocity is 6 × (backward axis along (sin, cos) + strafe axis along (cos, -sin)); opposing keys cancel, diagonals are not normalised |
| Physics.ForwardAxis | Player.cpp:44-51 | 'w' then 's' add 6 × ('s' held − 'w' held) × (sin, cos) to the velocity |
| Physics.StrafeAxis | Player.cpp:52-59 | 'a' then 'd' add 6 × ('d' held − 'a' held) × (cos, −sin) to the velocity |
| Physics.OpposingKeysCancel | Player.cpp:43-59 | holding both 'w' and 's' (or both 'a' and 'd') gives the velocity of the other keys alone |
| Physics.LaunchSpeed | Player.cpp:39-63 | pre-collision vertical speed is at least -12; a jump (7) only when space is held and the player was on the ground; otherwise gravity with the floor |
| Physics.Look | Player.cpp:29-35 | the yaw moves by 0.0015 × mouse x, the pitch by 0.0015 × mouse y clamped to [-1.5, 1.5]; every other field is unchanged |
| Physics.PushKeys | Player.cpp:44-59 | adding the held keys' pushes in the order w, s, a, d adds 6 × (backward axis along (sin, cos) + strafe axis along (cos, -sin)) to the starting velocity |
| Physics.Advance | Player.cpp:65-67 | a candidate coordinate stays put at zero speed or zero time; over positive time it grows iff the speed is positive and shrinks iff it is negative |
| Physics.Accelerate | Player.cpp:37-63 | the velocity phase sets the horizontal velocity to the key velocity at the current yaw and the vertical speed to the launch speed, and leaves position, rotation and ground contact alone |
| Physics.Resolve | Player.cpp:65-88 | X commits iff its box at the old y, z is free; Z iff its box at the committed x is free; Y iff its box at the committed x, z is free, otherwise y stays and yspeed becomes 0; onGround iff Y was blocked while moving down; velocities along X and Z are kept on a block |
| Physics.Step | Player.cpp:28-88 | one frame: yaw and clamped pitch from the mouse; velocity from the keys; the three commit rules; onGround iff the Y box is blocked and the launch speed was negative; no movement key means no horizontal motion; yspeed ≥ -12 |
| Physics.RunSettles | Player.cpp:28-88 | after any non-empty run of frames the pitch lies in [-1.5, 1.5] and yspeed ≥ -12, whatever the starting state |
| Physics.IdleKeepsHorizontal | Player.cpp:38-77 | over any run of frames with no movement key held, x and z never change |
| Physics.FallSpeedCompose | Player.cpp:40-41 | gravity over two intervals equals gravity over their sum |
| Physics.FreeFall | Player.cpp:40-88 | starting airborne in a map with no walls, the player never lands and its vertical speed after the frames is `max(v - 16 × total time, -12)` |
| Physics.Landing | Player.cpp:79-88 | from the origin moving up at 5 with dt = 1, a blocked Y box leaves y at 0, yspeed 0 and the player on the ground |
| Players.Player.constructor | Player.cpp:12-19 | the player starts at the origin, unrotated, airborne, with two fresh distinct shots and portals; speeds are arbitrary |
| Players.Player.Create | Player.cpp:21-26 | moves the player to the given point and makes it airborne; rotation and speeds are unchanged |
| Players.Player.Update | Player.cpp:28-99 | the new kinematic state is `Step` of the old; pitch in range and yspeed ≥ -12 afterwards; a slot whose shot was inactive and not inside a wall is left untouched |
| Players.Player.Turn | Player.cpp:29-35 | yaw and pitch follow the mouse, pitch clamped |
| Players.Player.Accelerate | Player.cpp:37-63 | speeds are reset, gravity and the keys applied, and a jump taken from the ground, as `Physics.Accelerate` |
| Players.Player.Walk | Player.cpp:43-59 | each held movement key adds its push in the order w, s, a, d; only xspeed and zspeed change |
| Players.Player.Move | Player.cpp:65-88 | collision resolution X, Z, Y as `Physics.Resolve` |
| Players.Player.UpdateShots | Player.cpp:90-98 | only the shots and portals change; an inactive shot outside every wall leaves its slot untouched |
| Players.Player.MousePressed | Player.cpp:101-117 | left touches only shot 0, right only shot 1; middle switches each of the two portals off (so `PortalsActive` is false) and keeps their poses and the shots; any other button changes nothing |
| Players.Player.PortalsActive | Player.cpp:125-127 | true iff every portal slot is active |

## Left out

- Rendering: `setView`, `drawPortalStencils`, `drawPortalOutlines` and `drawShots` (and the `RADDEG` constant only they use) are graphics-library calls with no state change.
- `Shot::update`, `Shot::shoot`, `Shot::placePortal`, `Portal::set`, the Shot and Portal constructors, `Map::collidesWithWall` and `Map::pointInWall` lie outside `Player.cpp` and are not modelled here, so the first five change their own objects to arbitrary values and the map is an oracle.
- Players.Player.UpdateShots: states only which objects may change and that an idle slot is untouched; whether placing a portal activates it or deactivates the shot is decided by `Shot::placePortal`, which is not part of this model, so neither is claimed. The wall check runs for inactive shots too, as in the source.
- Players.Player.constructor: says nothing about the portal templates set up by `Portal::set`, which is not part of this model, and leaves the three speeds arbitrary because the source never initialises them.
- IEEE single-precision rounding: all arithmetic is exact on `real`; `sin` and `cos` are uninterpreted.
- `Update` runs as four consecutive phase methods instead of one body; the statements and their order are the source's.
- The map is read-only and its answers depend only on the question asked.
