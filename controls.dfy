/** The ship's control law and the keyboard handler, as functions of values. The methods of
    module Game carry these out step by step on the mutable ship and keymap. */
module Controls {
  import opened Geometry

  // Key codes (`KeyboardEvent.which`) the game reacts to.
  const KeyShift := 16    // throttle up
  const KeyControl := 17  // throttle down
  const KeyQ := 81        // yaw, negative torque
  const KeyE := 69        // yaw, positive torque
  const KeyW := 87        // translate up
  const KeyS := 83        // translate down
  const KeyA := 65        // translate left
  const KeyD := 68        // translate right
  const KeyT := 84        // toggle stability assist (sas)
  const KeyR := 82        // toggle reaction control (rcs)

  const FullThrottle := 100

  /** The keymap: the last event type seen per key code (true for keydown). */
  type Keymap = map<int, bool>

  /** `keymap[code]` used as a condition: a code never seen reads as undefined, which is false. */
  predicate Held(keys: Keymap, code: int) { code in keys && keys[code] }

  // ---------------------------------------------------------------- keyboard handler

  /** The handler is installed as both `onkeydown` and `onkeyup`, so these are the only types. */
  datatype EventType = KeyDown | KeyUp

  datatype KeyEvent = KeyEvent(kind: EventType, which: int, target: string)

  /** What the handler may change: the keymap and the ship's two toggles. */
  datatype KeyState = KeyState(keymap: Keymap, sas: bool, rcs: bool)

  /** One key event: ignored unless its target is the document body; otherwise records whether
      the key is now down, and a keydown of t or r flips sas or rcs. */
  function HandleKey(k: KeyState, e: KeyEvent): KeyState
  {
    if e.target != "BODY" then k
    else
      var down := e.kind == KeyDown;
      KeyState(k.keymap[e.which := down],
               if e.which == KeyT && down then !k.sas else k.sas,
               if e.which == KeyR && down then !k.rcs else k.rcs)
  }

  /** Everything the handler promises about a single event. */
  lemma HandleKeySpec(k: KeyState, e: KeyEvent)
    ensures e.target != "BODY" ==> HandleKey(k, e) == k
    ensures e.target == "BODY" ==>
      HandleKey(k, e).keymap == k.keymap[e.which := e.kind == KeyDown] &&
      (Held(HandleKey(k, e).keymap, e.which) <==> e.kind == KeyDown)
    ensures forall c :: c != e.which ==>
      (c in HandleKey(k, e).keymap <==> c in k.keymap) &&
      (c in k.keymap ==> HandleKey(k, e).keymap[c] == k.keymap[c])
    ensures HandleKey(k, e).sas != k.sas <==> e.target == "BODY" && e.kind == KeyDown && e.which == KeyT
    ensures HandleKey(k, e).rcs != k.rcs <==> e.target == "BODY" && e.kind == KeyDown && e.which == KeyR
    ensures e.kind == KeyUp ==> HandleKey(k, e).sas == k.sas && HandleKey(k, e).rcs == k.rcs
  {
  }

  /** A sequence of events, handled in order. */
  function HandleKeys(k: KeyState, es: seq<KeyEvent>): KeyState
  {
    if es == [] then k else HandleKey(HandleKeys(k, es[..|es| - 1]), es[|es| - 1])
  }

  /** Number of keydowns of `code` that reached the body. */
  function Presses(es: seq<KeyEvent>, code: int): nat
  {
    if es == [] then 0
    else
      var e := es[|es| - 1];
      Presses(es[..|es| - 1], code) + (if e.target == "BODY" && e.kind == KeyDown && e.which == code then 1 else 0)
  }

  predicate Odd(n: nat) { n % 2 == 1 }

  /** Toggle parity: after any sequence of events, sas (rcs) has flipped exactly when an odd
      number of t (r) keydowns reached the body; autorepeated keydowns each count. */
  lemma {:induction false} ToggleParity(k: KeyState, es: seq<KeyEvent>)
    ensures HandleKeys(k, es).sas == (k.sas != Odd(Presses(es, KeyT)))
    ensures HandleKeys(k, es).rcs == (k.rcs != Odd(Presses(es, KeyR)))
  {
    if es != [] {
      ToggleParity(k, es[..|es| - 1]);
    }
  }

  /** Index of the last event for `code` that reached the body, or -1 when there is none. */
  function LastTouch(es: seq<KeyEvent>, code: int): (i: int)
    ensures -1 <= i < |es|
    ensures i >= 0 ==> es[i].target == "BODY" && es[i].which == code
    ensures forall j :: i < j < |es| ==> !(es[j].target == "BODY" && es[j].which == code)
  {
    if es == [] then -1
    else if es[|es| - 1].target == "BODY" && es[|es| - 1].which == code then |es| - 1
    else LastTouch(es[..|es| - 1], code)
  }

  /** Whether key `code` reads as held after `es` is decided by the last event for it that
      reached the body; with no such event it reads as before. */
  lemma {:induction false} HeldAfter(k: KeyState, es: seq<KeyEvent>, code: int)
    ensures Held(HandleKeys(k, es).keymap, code) ==
      if LastTouch(es, code) < 0 then Held(k.keymap, code) else es[LastTouch(es, code)].kind == KeyDown
  {
    if es != [] {
      HeldAfter(k, es[..|es| - 1], code);
    }
  }

  // ---------------------------------------------------------------- throttle and thrust

  /** Throttle rate limit: shift raises by one while below full, otherwise control lowers by one
      while above zero. */
  function NextThrottle(throttle: int, up: bool, down: bool): int
  {
    if up && throttle < FullThrottle then throttle + 1
    else if down && throttle > 0 then throttle - 1
    else throttle
  }

  lemma NextThrottleSpec(t: int, up: bool, down: bool)
    ensures 0 <= t <= FullThrottle ==> 0 <= NextThrottle(t, up, down) <= FullThrottle
    ensures -1 <= NextThrottle(t, up, down) - t <= 1
    ensures up && t < FullThrottle ==> NextThrottle(t, up, down) == t + 1
    ensures up && t == FullThrottle && down ==> NextThrottle(t, up, down) == t - 1
    ensures !up && down && t > 0 ==> NextThrottle(t, up, down) == t - 1
    ensures !up && !down ==> NextThrottle(t, up, down) == t
    ensures NextThrottle(t, up, down) > t <==> up && t < FullThrottle
    ensures NextThrottle(t, up, down) < t <==> down && t > 0 && !(up && t < FullThrottle)
  {
  }

  /** Throttle after a run of ticks, each given as (shift held, control held). */
  function Throttles(t: int, inputs: seq<(bool, bool)>): int
  {
    if inputs == [] then t
    else NextThrottle(Throttles(t, inputs[..|inputs| - 1]), inputs[|inputs| - 1].0, inputs[|inputs| - 1].1)
  }

  /** However long the run, a throttle that starts in [0, 100] stays there. */
  lemma {:induction false} ThrottleStaysInRange(t: int, inputs: seq<(bool, bool)>)
    requires 0 <= t <= FullThrottle
    ensures 0 <= Throttles(t, inputs) <= FullThrottle
  {
    if inputs != [] {
      ThrottleStaysInRange(t, inputs[..|inputs| - 1]);
    }
  }

  function Min(a: int, b: int): int { if a <= b then a else b }

  /** Holding shift for n ticks from t in [0, 100] gives min(t + n, 100) when control is never
      held (500 ticks from 0 give exactly 100). With control held as well on some ticks, the
      throttle after n ticks lies between min(t + n, 99) and min(t + n, 100). */
  lemma {:induction false} ShiftRun(t: int, inputs: seq<(bool, bool)>)
    requires 0 <= t <= FullThrottle
    requires forall i :: 0 <= i < |inputs| ==> inputs[i].0
    ensures Min(t + |inputs|, FullThrottle - 1) <= Throttles(t, inputs) <= Min(t + |inputs|, FullThrottle)
    ensures (forall i :: 0 <= i < |inputs| ==> !inputs[i].1) ==>
      Throttles(t, inputs) == Min(t + |inputs|, FullThrottle)
  {
    if inputs != [] {
      var n := |inputs| - 1;
      ShiftRun(t, inputs[..n]);
      assert inputs[n].0;
      assert Throttles(t, inputs) == NextThrottle(Throttles(t, inputs[..n]), true, inputs[n].1);
    }
  }

  /** Engine thrust for a throttle percentage. */
  function Thrust(throttle: int, maxThrust: real): real
  {
    throttle as real * maxThrust / 100.0
  }

  lemma ThrustSpec(throttle: int, maxThrust: real)
    requires 0 <= throttle <= FullThrottle && maxThrust >= 0.0
    ensures 0.0 <= Thrust(throttle, maxThrust) <= maxThrust
    ensures throttle == 0 ==> Thrust(throttle, maxThrust) == 0.0
    ensures throttle == FullThrottle ==> Thrust(throttle, maxThrust) == maxThrust
    ensures throttle < FullThrottle ==> Thrust(throttle, maxThrust) <= Thrust(throttle + 1, maxThrust)
  {
    assert throttle as real * maxThrust <= 100.0 * maxThrust;
  }

  // ---------------------------------------------------------------- yaw and translation

  /** Yaw torque: q wins over e. */
  function Yaw(torque: real, keys: Keymap, yaw: real): real
  {
    if Held(keys, KeyQ) then torque - yaw
    else if Held(keys, KeyE) then torque + yaw
    else torque
  }

  /** The translation pushes fired this tick, in the order they are applied: w before s on the
      vertical axis, a before d on the horizontal one. */
  function JoystickPushes(keys: Keymap): seq<Direction>
  {
    (if Held(keys, KeyW) then [Up] else if Held(keys, KeyS) then [Down] else []) +
    (if Held(keys, KeyA) then [Left] else if Held(keys, KeyD) then [Right] else [])
  }

  lemma JoystickPushesSpec(keys: Keymap)
    ensures |JoystickPushes(keys)| <= 2
    ensures Up in JoystickPushes(keys) <==> Held(keys, KeyW)
    ensures Down in JoystickPushes(keys) <==> Held(keys, KeyS) && !Held(keys, KeyW)
    ensures Left in JoystickPushes(keys) <==> Held(keys, KeyA)
    ensures Right in JoystickPushes(keys) <==> Held(keys, KeyD) && !Held(keys, KeyA)
    ensures forall i, j :: 0 <= i < j < |JoystickPushes(keys)| ==>
      Vertical(JoystickPushes(keys)[i]) != Vertical(JoystickPushes(keys)[j])
  {
  }

  /** A force accumulator after pushes of magnitude `mag` along each direction, in order. */
  function Accumulate(force: Vec, dirs: seq<Direction>, mag: real): Vec
  {
    if dirs == [] then force
    else Add(Accumulate(force, dirs[..|dirs| - 1], mag), Scale(Unit(dirs[|dirs| - 1]), mag))
  }

  lemma AccumulateSnoc(force: Vec, dirs: seq<Direction>, d: Direction, mag: real)
    ensures Accumulate(force, dirs + [d], mag) == Add(Accumulate(force, dirs, mag), Scale(Unit(d), mag))
  {
    assert (dirs + [d])[..|dirs|] == dirs;
  }

  /** The vertical push alone: w moves the ship up (-y) by `mag`, otherwise s moves it down. */
  lemma VerticalPush(force: Vec, keys: Keymap, mag: real)
    ensures var v := if Held(keys, KeyW) then [Up] else if Held(keys, KeyS) then [Down] else [];
      Accumulate(force, v, mag) ==
        Vec(force.x, force.y + (if Held(keys, KeyW) then -mag else if Held(keys, KeyS) then mag else 0.0))
  {
    if Held(keys, KeyW) {
      AccumulateSnoc(force, [], Up, mag);
      assert [] + [Up] == [Up];
    } else if Held(keys, KeyS) {
      AccumulateSnoc(force, [], Down, mag);
      assert [] + [Down] == [Down];
    }
  }

  /** The joystick's net push: w or s move the ship up (-y) or down (+y) by `mag`, a or d left
      (-x) or right (+x), w and a taking precedence; the two axes are independent. */
  lemma JoystickNet(force: Vec, keys: Keymap, mag: real)
    ensures Accumulate(force, JoystickPushes(keys), mag) ==
      Vec(force.x + (if Held(keys, KeyA) then -mag else if Held(keys, KeyD) then mag else 0.0),
          force.y + (if Held(keys, KeyW) then -mag else if Held(keys, KeyS) then mag else 0.0))
  {
    var v := if Held(keys, KeyW) then [Up] else if Held(keys, KeyS) then [Down] else [];
    VerticalPush(force, keys, mag);
    var mid := Accumulate(force, v, mag);
    if Held(keys, KeyA) {
      assert JoystickPushes(keys) == v + [Left];
      AccumulateSnoc(force, v, Left, mag);
    } else if Held(keys, KeyD) {
      assert JoystickPushes(keys) == v + [Right];
      AccumulateSnoc(force, v, Right, mag);
    } else {
      assert JoystickPushes(keys) == v;
    }
  }

  // ---------------------------------------------------------------- the control law

  /** The ship's quantities the control law writes. */
  datatype Helm = Helm(throttle: int, thrust: real, torque: real, angularVelocity: real, force: Vec)

  /** The ship's settings the control law reads. */
  datatype Rig = Rig(maxThrust: real, yaw: real, joystick: bool, joystickThrust: real, sas: bool)

  /** One tick of the control law, with `heading` the unit vector of the ship's angle. */
  function Steer(h: Helm, rig: Rig, keys: Keymap, heading: Vec): Helm
  {
    var throttle := NextThrottle(h.throttle, Held(keys, KeyShift), Held(keys, KeyControl));
    var thrust := Thrust(throttle, rig.maxThrust);
    var force := Add(h.force, Scale(heading, thrust));
    Helm(throttle, thrust, Yaw(h.torque, keys, rig.yaw),
         if rig.sas then 0.0 else h.angularVelocity,
         if rig.joystick then Accumulate(force, JoystickPushes(keys), rig.joystickThrust) else force)
  }

  /** Stability assist zeroes the spin but leaves the yaw torque in place; without it the spin
      is untouched. q wins over e; with neither the torque is unchanged. */
  lemma SteerAttitude(h: Helm, rig: Rig, keys: Keymap, heading: Vec)
    ensures rig.sas ==> Steer(h, rig, keys, heading).angularVelocity == 0.0
    ensures !rig.sas ==> Steer(h, rig, keys, heading).angularVelocity == h.angularVelocity
    ensures Held(keys, KeyQ) ==> Steer(h, rig, keys, heading).torque == h.torque - rig.yaw
    ensures !Held(keys, KeyQ) && Held(keys, KeyE) ==> Steer(h, rig, keys, heading).torque == h.torque + rig.yaw
    ensures !Held(keys, KeyQ) && !Held(keys, KeyE) ==> Steer(h, rig, keys, heading).torque == h.torque
  {
  }

  /** The tick's throttle step is the rate limit: shift below full raises it by one, otherwise
      control above zero lowers it by one, and with neither key it stays put. */
  lemma SteerThrottle(h: Helm, rig: Rig, keys: Keymap, heading: Vec)
    ensures -1 <= Steer(h, rig, keys, heading).throttle - h.throttle <= 1
    ensures Held(keys, KeyShift) && h.throttle < FullThrottle ==>
      Steer(h, rig, keys, heading).throttle == h.throttle + 1
    ensures Held(keys, KeyShift) && Held(keys, KeyControl) && h.throttle == FullThrottle ==>
      Steer(h, rig, keys, heading).throttle == h.throttle - 1
    ensures !Held(keys, KeyShift) && Held(keys, KeyControl) && h.throttle > 0 ==>
      Steer(h, rig, keys, heading).throttle == h.throttle - 1
    ensures !Held(keys, KeyShift) && !Held(keys, KeyControl) ==>
      Steer(h, rig, keys, heading).throttle == h.throttle
  {
    NextThrottleSpec(h.throttle, Held(keys, KeyShift), Held(keys, KeyControl));
  }

  /** With the joystick enabled, the tick adds the translation pushes on top of the main
      engine's force: a or d on x, w or s on y, w and a taking precedence. */
  lemma SteerJoystick(h: Helm, rig: Rig, keys: Keymap, heading: Vec)
    ensures rig.joystick ==>
      var base, mag := Add(h.force, Scale(heading, Steer(h, rig, keys, heading).thrust)), rig.joystickThrust;
      Steer(h, rig, keys, heading).force ==
        Vec(base.x + (if Held(keys, KeyA) then -mag else if Held(keys, KeyD) then mag else 0.0),
            base.y + (if Held(keys, KeyW) then -mag else if Held(keys, KeyS) then mag else 0.0))
  {
    JoystickNet(Add(h.force, Scale(heading, Steer(h, rig, keys, heading).thrust)), keys, rig.joystickThrust);
  }

  /** Thrust is recomputed from the new throttle every tick and applied along the heading;
      translation pushes are added only when the joystick is enabled. */
  lemma SteerThrust(h: Helm, rig: Rig, keys: Keymap, heading: Vec)
    requires 0 <= h.throttle <= FullThrottle && rig.maxThrust >= 0.0
    ensures var r := Steer(h, rig, keys, heading);
      0 <= r.throttle <= FullThrottle &&
      r.thrust == Thrust(r.throttle, rig.maxThrust) && 0.0 <= r.thrust <= rig.maxThrust
    ensures !rig.joystick ==>
      Steer(h, rig, keys, heading).force == Add(h.force, Scale(heading, Steer(h, rig, keys, heading).thrust))
    ensures !rig.joystick && !Held(keys, KeyShift) && h.throttle == 0 ==>
      Steer(h, rig, keys, heading).force == h.force
  {
    var r := Steer(h, rig, keys, heading);
    NextThrottleSpec(h.throttle, Held(keys, KeyShift), Held(keys, KeyControl));
    ThrustSpec(r.throttle, rig.maxThrust);
  }
}
