# ksp.js: the ship's per-tick control logic, modelled in Dafny

`ksp.js` is a small browser game built on the Matter.js physics engine. A spaceship ("ad astra")
sits on a launchpad above a large moon. A box floats beside it. The player flies the ship from the
keyboard:

- shift and control move the throttle up and down;
- q and e apply yaw torque;
- t toggles stability assist (sas), which stops the ship's spin;
- r toggles reaction control (rcs);
- w, s, a and d fire translation thrusters while the joystick setting is on.

On every `beforeTick` event the game does the following, in order:

1. It lets every pair of bodies in the gravitating list attract each other.
2. It applies the control law.
3. It records the engine timestamp and moves the viewport with the ship.

This project models that per-tick logic and the key handler. It proves what the code promises:

- the throttle stays in bounds, and its steps and key priorities are as written;
- the thrust formula;
- yaw and sas behaviour;
- key-toggle parity;
- which joystick pushes fire;
- the gravity loop covers each pair exactly once and its forces balance;
- the camera offsets telescope.

## Layout

| file | module | contents |
|---|---|---|
| `geometry.dfy` | `Geometry` | 2-D vectors over reals, their sum over a sequence, the four thruster directions |
| `bodies.dfy` | `Bodies` | the physics `Body` class (position, mass, angle, spin, force and torque accumulators) and ghost views of a list of bodies |
| `controls.dfy` | `Controls` | the key handler and the control law as pure functions, with their lemmas |
| `gravity.dfy` | `Gravity` | the pair enumeration of the nested loop, the force accounting as a fold, its closed form, and the imperative loop over the `matter` array |
| `camera.dfy` | `Camera` | the camera-follow offsets over successive ticks |
| `game.dfy` | `Game` | the `Ship` and `Game` classes: the constructors, the key handler `OnKey`, the `Control`/`Joystick` steps, and `Tick` |

The code has two forms:

- **Imperative parts are classes with methods.** These are the key handler, the tick, `joystick` and
  `newtonian`. Each method is proved equal to a pure function of the old state, and the properties
  are proved as lemmas about those functions:
  - `Game.Game.OnKey` against `Controls.HandleKey`;
  - `Game.Ship.Control` against `Controls.Steer`;
  - `Gravity.Gravitate` against `Gravity.ApplyPairs` over `Gravity.Pairs`.
- **Pure parts are functions.** `heading` and the thrust formula are Dafny functions.

`Game.Game.Valid` keeps two invariants:

- `viewport - where` is constant;
- the throttle stays in [0, 100].

The constant `viewport - where` is the imperative form of `Camera.OffsetsTelescope`. Each
`Tick` moves the viewport by the ship's position minus the previous `where`, so over a run of
ticks the viewport moves by the last position minus the first `where`: the sum of the offsets
that `Camera.Offsets` lists.

## Model

| member | source | states |
|---|---|---|
| Controls.HandleKey | ksp.js:104-115 | The handler as a function of the keymap and the two toggles: ignore events whose target is not BODY, else record `keymap[which] = (type == keydown)` and flip sas on a keydown of 84, rcs on a keydown of 82. Its properties are `HandleKeySpec`, `ToggleParity` and `HeldAfter`. |
| Controls.HandleKeySpec | ksp.js:104-115 | An event whose target is not BODY changes nothing. Otherwise the event's key reads as held exactly when the event is a keydown, and no other key's entry changes. sas flips iff the event is a BODY keydown of 84, and rcs flips iff it is a BODY keydown of 82. A keyup never flips either toggle. |
| Controls.ToggleParity | ksp.js:108-113 | After any sequence of events, sas (and likewise rcs) differs from its start value exactly when an odd number of t (r) keydowns reached BODY. |
| Controls.LastTouch | ksp.js:105-107 | Returns the index of the last event for a key that reached BODY, or -1 if there is none. No later event touches that key. |
| Controls.HeldAfter | ksp.js:105-107 | After a sequence of events, whether a key reads as held depends only on the kind of the last BODY event for it. With no such event it reads as before. |
| Controls.NextThrottle | ksp.js:144-148 | The throttle step: shift below 100 adds 1, else control above 0 subtracts 1, else no change. Its properties are `NextThrottleSpec`, `ThrottleStaysInRange` and `ShiftRun`. |
| Controls.NextThrottleSpec | ksp.js:144-148 | The throttle changes by at most 1 and stays in [0, 100] if it starts there. With shift held below 100 it rises by 1, whatever control's state. At 100 with both keys held it falls by 1. With control alone above 0 it falls by 1. With neither key it is unchanged. It rises iff shift is held below 100, and it falls iff the else-branch fires. |
| Controls.ThrottleStaysInRange | ksp.js:144-148 | Over any run of ticks, a throttle that starts in [0, 100] (the ship starts at 0, line 44) stays in [0, 100]. |
| Controls.ShiftRun | ksp.js:144-148 | Holding shift for n ticks from t gives min(t+n, 100) when control is never held. When control is also held, the result lies between min(t+n, 99) and min(t+n, 100). |
| Controls.Thrust | ksp.js:150 | `throttle * maxThrust / 100` over exact reals. Its properties are `ThrustSpec`. |
| Controls.ThrustSpec | ksp.js:150 | For maxThrust ≥ 0 and a throttle in [0, 100], thrust = throttle·maxThrust/100 lies in [0, maxThrust]. It is 0 at throttle 0 and maxThrust at 100, and it is monotone in the throttle. |
| Controls.Yaw | ksp.js:138-142 | The yaw step: q subtracts yaw from the torque, else e adds it, else no change. Its properties are in `SteerAttitude`. |
| Controls.JoystickPushes | ksp.js:186-201 | The directions `joystick` pushes along, in order: up for w else down for s, then left for a else right for d. Its properties are `JoystickPushesSpec` and `JoystickNet`. |
| Controls.JoystickPushesSpec | ksp.js:186-201 | At most two pushes fire, never two on the same axis. Up fires iff w is held. Down fires iff s is held and w is not. Left fires iff a is held. Right fires iff d is held and a is not. |
| Controls.Accumulate | ksp.js:186-201 | The chain of `Body.applyForce` calls in `joystick`: each direction in turn adds joystickThrust along its unit heading to the force. Its properties are `VerticalPush` and `JoystickNet`. |
| Controls.VerticalPush | ksp.js:187-193 | The vertical branch adds -joystickThrust to y for w, otherwise +joystickThrust for s, otherwise nothing. x is untouched. |
| Controls.JoystickNet | ksp.js:186-201 | The joystick's net effect on the force, in closed form. Horizontally it adds -mag for a, otherwise +mag for d. Vertically it adds -mag for w, otherwise +mag for s. |
| Controls.Steer | ksp.js:134-156 | The control part of the tick on the ship's throttle, thrust, torque, spin and force, in the source's order. Its properties are `SteerAttitude`, `SteerThrottle`, `SteerJoystick` and `SteerThrust`; `Game.Ship.Control` carries it out. |
| Controls.SteerAttitude | ksp.js:134-142 | sas zeroes the angular velocity; without sas the spin is untouched. With q held the torque falls by exactly yaw, even if e is held. With only e held it rises by yaw. With neither it is unchanged. sas does not suppress the torque. |
| Controls.SteerThrottle | ksp.js:144-148 | Within the tick, the throttle changes by at most 1. Shift below 100 raises it by 1, whatever control's state. At 100 with both keys held it falls by 1. Control alone above 0 lowers it by 1. With neither key it is unchanged. |
| Controls.SteerJoystick | ksp.js:154-156 | With the joystick on, the tick's force is the main engine's (old force plus heading·thrust) plus -joystickThrust on x for a, otherwise +joystickThrust for d, and -joystickThrust on y for w, otherwise +joystickThrust for s. |
| Controls.SteerThrust | ksp.js:144-156 | The new throttle is in [0, 100]. Thrust is recomputed from the new throttle and lies in [0, maxThrust]. With the joystick off, the force gains exactly heading·thrust; if in addition the throttle is 0 and shift is released, the force is unchanged. |
| Geometry.Unit | ksp.js:182-199 | `heading` of 1.5π, 0.5π, π and 0 are unit vectors. Up and down have no x component; left and right have one. |
| Geometry.SumVecUpdate | ksp.js:209-210 | Replacing one accumulator changes the total force by the difference; this is the step the momentum lemma uses. |
| Bodies.Body.constructor | ksp.js:40-72 | A body starts with the given position, mass and angle, and with no force, no torque and no spin. |
| Bodies.Body.ApplyForce | ksp.js:151-152 | `applyForce` at the body's own position (here and in `joystick` and `newtonian`) adds f to the force accumulator and changes nothing else. |
| Gravity.Pairs | ksp.js:128-129 | The pairs (i, j) the nested loop visits over n bodies, row by row. Its properties are `PairsSpec`. |
| Gravity.RowSpec | ksp.js:129 | Row i up to column n holds n-i-1 pairs, namely (i, i+1), …, (i, n-1), in order. |
| Gravity.RowMembers | ksp.js:129 | A pair is in row i iff its first index is i and its second index is between i and n. |
| Gravity.PairsBeforeCount | ksp.js:128-129 | The first i rows of the loop over n bodies hold i(2n-i-1)/2 pairs. |
| Gravity.PairsBeforeMembers | ksp.js:128-129 | A pair is in the first i rows iff p.0 < i and p.0 < p.1 < n. |
| Gravity.PairsBeforeOrdered | ksp.js:128-129 | The loop visits pairs in strictly increasing lexicographic order, so none twice. |
| Gravity.PairsSpec | ksp.js:128-132 | The nested loop calls `newtonian` n(n-1)/2 times: once for each pair i < j < n, never with i == j, and never twice for the same pair. |
| Gravity.Step | ksp.js:209-210 | One `newtonian` call on the force accumulators: f onto the first body, then -f onto the second. Its properties are `StepSpec`. |
| Gravity.ApplyPairs | ksp.js:128-132 | The accumulators after `newtonian` on each pair of a list, in order. Its properties are `GravityConservesMomentum` and `GravityClosedForm`; `Gravitate` carries it out. |
| Gravity.StepSpec | ksp.js:209-210 | One call on i < j adds f to body i, adds -f to body j, and leaves every other accumulator unchanged. |
| Gravity.GravityConservesMomentum | ksp.js:203-211 | For any force law and any list of pairs, the pass keeps the number of accumulators and their vector sum unchanged. |
| Gravity.GravitateConserves | ksp.js:128-132 | The full nested pass over the gravitating list adds forces that sum to zero. |
| Gravity.RowEffect | ksp.js:129-130 | Row i, up to column j, adds to body i its pulls from bodies i+1 … j-1. Each of those bodies loses the pull that body i receives from it. Every other body is unchanged. |
| Gravity.RowsPending | ksp.js:128-130 | After the first i rows, a body k ≥ i has only lost the pulls that bodies 0 … i-1 received from it. |
| Gravity.PendingStep | ksp.js:129-130 | Row i-1 takes from a later body k exactly the pull that body i-1 receives from it, so k's pending loss grows by that pull. |
| Gravity.RowSplit | ksp.js:128-129 | Applying the first i rows is applying the first i-1 rows, then row i-1. |
| Gravity.RowCompletes | ksp.js:128-130 | Once row k is done, body k has received its whole net gravity. |
| Gravity.RowSkips | ksp.js:128-130 | A row beyond body k leaves body k's accumulator alone. |
| Gravity.RowsDone | ksp.js:128-130 | After the first i rows, each body k < i has received exactly its net gravity. |
| Gravity.GravityClosedForm | ksp.js:128-132 | After the pass, body k has gained the sum of the forces it receives from each later body, minus the sum of the forces each earlier body received from it. |
| Gravity.Newtonian | ksp.js:203-211 | For distinct bodies, m1 gains the law's force f and m2 gains -f. Applied to a single body, both steps land on it. Nothing else changes. |
| Gravity.VisitPair | ksp.js:129-130 | One inner-loop iteration, `newtonian(matter[i], matter[j], G)`, extends the force fold by the pair (i, j). Positions, masses, angles, spins and torques are unchanged. |
| Gravity.GravitateRow | ksp.js:129-131 | The inner loop for row i extends the applied pairs by row i, and everything but the force accumulators is unchanged. |
| Gravity.Gravitate | ksp.js:128-132 | The nested loop visits exactly the pairs of the pair enumeration, in order. The accumulators become the fold over those pairs, and every body's pose is unchanged. |
| Camera.Offsets | ksp.js:178-179 | The `Bounds.translate` offsets over a run of ticks: each is the ship's position minus the `where` recorded at the previous tick, which then becomes that position. Its properties are `OffsetsTelescope`. |
| Camera.OffsetsTelescope | ksp.js:178-179 | Over successive ticks there is one viewport offset per tick, and the offsets sum to the last ship position minus the first reference point. |
| Game.Ship.constructor | ksp.js:40-56 | The ship starts with the source's values. Its name is "ad astra". maxThrust is 0.000009, thrust is 0 and throttle is 0. yaw is 0.000007, the joystick is on and joystickThrust is 0.000003. rcs and sas are off, and the angle is 3π/2. |
| Game.Ship.Joystick | ksp.js:186-201 | `joystick(ship, keymap)` adds to the force exactly the pushes of `JoystickPushes`, in order, each of magnitude joystickThrust. |
| Game.Ship.Control | ksp.js:134-156 | The control part of the tick takes the ship's throttle, thrust, torque, spin and force to `Steer` of their old values. |
| Game.Game.constructor | ksp.js:30-75 | The ship, moon, box and launchpad are fresh bodies at the source's positions, with the given masses and no force, torque or spin. The ship's angle is 3π/2, the moon's 0.1, the others 0. The ship's settings are those of lines 40-56: maxThrust 0.000009, thrust and throttle 0, yaw 0.000007, the joystick on with joystickThrust 0.000003, sas and rcs off. The gravitating list is [ship, moon, box, launchpad], launchpad included. g is 0.01, tick is 0 and the keymap is empty. `where` is the ship's position. |
| Game.Game.OnKey | ksp.js:104-115 | The keydown/keyup handler takes the keymap, sas and rcs to `HandleKey` of their old values. |
| Game.Game.Gravitated | ksp.js:128-132 | The forces after the gravity pass, one per body, with their sum unchanged. |
| Game.Game.Tick | ksp.js:127-179 | `beforeTick` first applies the gravity pass to every body. It then applies `Steer` to the ship, and the thrust equals the formula of the new throttle. The other bodies keep their poses and end with exactly their gravitated forces. The ship's position, mass and angle are unchanged. tick becomes the timestamp and `where` becomes the ship's position. The viewport moves by the ship's position minus the previous `where`, and the throttle stays in [0, 100]. |

## Left out

- Matter.js itself is not modelled:
  - the engine, runner, renderer and `World.add`;
  - the shape geometry that gives each body its mass;
  - the integrator that turns the accumulated force and torque into motion, and the engine's
    clearing of those accumulators after each step.

  The model starts each tick from whatever the accumulators hold. The window size and the four
  masses are constructor parameters.
- `heading(angle)` (`cos`/`sin`) for the ship's own angle is a parameter `heading: real -> Vec`
  of `Tick` and `Control`. The joystick's four fixed headings are exact unit vectors
  (`Geometry.Unit`), because real arithmetic has no trigonometry.
- The gravitational force of `newtonian` (`normalise(d) · G·m1·m2/|d|²`, lines 205-207) is a
  parameter `law` of type `(Particle, Particle, real) -> Vec`. Its square root and its NaN for
  coincident bodies are not modelled. Only the accounting is: +f on the first body, -f on the
  second.
- Floating point: every quantity is an exact real. Rounding in the thrust formula and in the
  vector sums is not modelled.
- `Vector.mult(f, timestamp - tick)` at line 208 returns a new vector that is dropped, so the
  model applies f unscaled, as the code does.
- `Body.setAngularVelocity(ship, 0)` also resets Matter's `anglePrev` and speed bookkeeping; the
  model only sets the angular velocity to 0.
- `Body.applyForce` adds torque only through the lever arm between the point of application and
  the body's position. Every call applies the force at the body's own position, so the arm is zero
  and `Bodies.Body.ApplyForce` leaves the torque alone.
- `e.preventDefault()`, the HUD, the debug render flags, the dat.GUI bindings and `visible()` are
  DOM and display work.
- Browser event timing and key autorepeat: the model takes events as given, one call or one list
  element each.

## Behaviour the model keeps

The model does what the code does, including these points:

- **No coincident-body guard.** `newtonian` (ksp.js:203-211) has no test for two bodies at the
  same position, so whatever the law yields is applied.
- **The time-delta scaling has no effect.** `Vector.mult(f, engine.timing.timestamp - state.tick)`
  at ksp.js:208 returns a new vector that is discarded; f is applied unscaled.
- **The q key wins over e.** The yaw test at ksp.js:138-142 is an `else if`, so with both keys
  held only q's torque is applied.
- **w wins over s, and a wins over d.** The translation tests at ksp.js:187-199 are two
  `else if` chains, so at most one push fires per axis.
- **sas keeps the yaw torque.** sas zeroes the spin (ksp.js:134-136) before the yaw torque is
  added, and the torque is still applied in the same tick.
- **At full throttle with both keys held the throttle goes 100, 99, 100.** At 100 the shift
  test of ksp.js:144 fails, so the control branch lowers the throttle to 99, and the next tick
  raises it back to 100.
