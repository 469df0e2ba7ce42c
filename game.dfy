/** The game object: the ship, the gravitating list, the keymap and the bookkeeping that the
    key handler and the `beforeTick` handler update. */
module Game {
  import opened Geometry
  import opened Bodies
  import opened Controls
  import opened Gravity

  /** `Math.PI` to the precision of a double. */
  const Pi: real := 3.141592653589793

  /** Gravitational constant `state.g`. */
  const G: real := 0.01

  /** The ship: a physics body with the game's extra fields. */
  class Ship {
    const body: Body
    var name: string
    var maxThrust: real
    var thrust: real
    var throttle: int
    var yaw: real
    var joystick: bool
    var joystickThrust: real
    var rcs: bool
    var sas: bool

    /** The ship as created, at `position` with the mass the engine derives from its shape. */
    constructor (position: Vec, mass: real)
      ensures fresh(body) && body.position == position && body.mass == mass && body.angle == Pi * 3.0 / 2.0
      ensures body.force == Zero && body.torque == 0.0 && body.angularVelocity == 0.0
      ensures name == "ad astra" && maxThrust == 0.000009 && thrust == 0.0 && throttle == 0
      ensures yaw == 0.000007 && joystick && joystickThrust == 0.000003 && !rcs && !sas
    {
      body := new Body(position, mass, Pi * 3.0 / 2.0);
      name := "ad astra";
      maxThrust := 0.000009;
      thrust := 0.0;
      throttle := 0;
      yaw := 0.000007;
      joystick := true;
      joystickThrust := 0.000003;
      rcs := false;
      sas := false;
    }

    function State(): Helm
      reads this, body
    {
      Helm(throttle, thrust, body.torque, body.angularVelocity, body.force)
    }

    function Settings(): Rig
      reads this
    {
      Rig(maxThrust, yaw, joystick, joystickThrust, sas)
    }

    /** `joystick(ship, keymap)`: w else s, then a else d, each a push of `joystickThrust`. */
    method Joystick(keys: Keymap)
      modifies body`force
      ensures body.force == Accumulate(old(body.force), JoystickPushes(keys), joystickThrust)
    {
      if Held(keys, KeyW) {
        body.ApplyForce(Scale(Unit(Up), joystickThrust));
      } else if Held(keys, KeyS) {
        body.ApplyForce(Scale(Unit(Down), joystickThrust));
      }
      ghost var v := if Held(keys, KeyW) then [Up] else if Held(keys, KeyS) then [Down] else [];
      VerticalPush(old(body.force), keys, joystickThrust);
      assert body.force == Accumulate(old(body.force), v, joystickThrust);
      if Held(keys, KeyA) {
        body.ApplyForce(Scale(Unit(Left), joystickThrust));
      } else if Held(keys, KeyD) {
        body.ApplyForce(Scale(Unit(Right), joystickThrust));
      }
    }

    /** The control part of `beforeTick`: stability assist, yaw, throttle, main engine along
        `heading(angle)`, then the joystick when enabled. */
    method Control(keys: Keymap, heading: real -> Vec)
      modifies this`throttle, this`thrust, body`torque, body`angularVelocity, body`force
      ensures State() == Steer(old(State()), Settings(), keys, heading(body.angle))
    {
      if sas {
        body.angularVelocity := 0.0;
      }
      if Held(keys, KeyQ) {
        body.torque := body.torque - yaw;
      } else if Held(keys, KeyE) {
        body.torque := body.torque + yaw;
      }
      if Held(keys, KeyShift) && throttle < FullThrottle {
        throttle := throttle + 1;
      } else if Held(keys, KeyControl) && throttle > 0 {
        throttle := throttle - 1;
      }
      thrust := Thrust(throttle, maxThrust);
      body.ApplyForce(Scale(heading(body.angle), thrust));
      if joystick {
        Joystick(keys);
      }
    }
  }

  class Game {
    const ship: Ship
    const matter: array<Body>  // the bodies under mutual gravitation: ship, moon, box, launchpad
    var keymap: Keymap
    var g: real
    var tick: real
    var where: Vec     // the ship position the camera last followed to
    var viewport: Vec  // the render bounds' offset
    ghost const track: Vec // viewport - where, fixed for the whole game

    ghost predicate Valid()
      reads this, ship, matter
    {
      matter.Length >= 1 && matter[0] == ship.body && Distinct(matter[..]) &&
      0 <= ship.throttle <= FullThrottle &&
      Sub(viewport, where) == track
    }

    /** The game at start. Window size and body masses come from the browser and the physics
        engine; the positions, angles and settings are the source's. */
    constructor (width: real, height: real, shipMass: real, moonMass: real, boxMass: real, padMass: real)
      ensures Valid() && fresh(ship) && fresh(matter)
      ensures matter.Length == 4 && forall k :: 0 <= k < matter.Length ==> fresh(matter[k])
      ensures ship.body.position == Vec(width / 2.0, height - 310.0) && ship.body.mass == shipMass
      ensures ship.body.angle == Pi * 3.0 / 2.0
      ensures matter[1].position == Vec(width / 2.0, height + 100.0) && matter[1].mass == moonMass
      ensures matter[1].angle == 0.1
      ensures matter[2].position == Vec(width * 0.2, height * 0.5) && matter[2].mass == boxMass
      ensures matter[2].angle == 0.0
      ensures matter[3].position == Vec(width / 2.0, height - 300.0) && matter[3].mass == padMass
      ensures matter[3].angle == 0.0
      ensures Forces(matter[..]) == [Zero, Zero, Zero, Zero]
      ensures forall k :: 0 <= k < matter.Length ==> matter[k].torque == 0.0 && matter[k].angularVelocity == 0.0
      ensures ship.name == "ad astra" && ship.maxThrust == 0.000009 && ship.thrust == 0.0 && ship.throttle == 0
      ensures ship.yaw == 0.000007 && ship.joystick && ship.joystickThrust == 0.000003
      ensures !ship.sas && !ship.rcs
      ensures keymap == map[] && g == G && tick == 0.0 && where == ship.body.position && viewport == Zero
    {
      var s := new Ship(Vec(width / 2.0, height - 310.0), shipMass);
      var launchpad := new Body(Vec(width / 2.0, height - 300.0), padMass, 0.0);
      var moon := new Body(Vec(width / 2.0, height + 100.0), moonMass, 0.1);
      var box := new Body(Vec(width * 0.2, height * 0.5), boxMass, 0.0);
      ship := s;
      matter := new Body[] [s.body, moon, box, launchpad];
      keymap := map[];
      g := G;
      tick := 0.0;
      where := s.body.position;
      viewport := Zero;
      track := Sub(Zero, s.body.position);
    }

    function Keys(): KeyState
      reads this, ship
    {
      KeyState(keymap, ship.sas, ship.rcs)
    }

    /** The keydown/keyup handler. */
    method OnKey(e: KeyEvent)
      requires Valid()
      modifies this`keymap, ship`sas, ship`rcs
      ensures Valid()
      ensures Keys() == HandleKey(old(Keys()), e)
    {
      if e.target == "BODY" {
        keymap := keymap[e.which := e.kind == KeyDown];
        if e.which == KeyT && e.kind == KeyDown {
          ship.sas := !ship.sas;
        }
        if e.which == KeyR && e.kind == KeyDown {
          ship.rcs := !ship.rcs;
        }
      }
    }

    /** The force accumulators after the gravitation pass over the current bodies. */
    ghost function Gravitated(law: PairLaw): (r: seq<Vec>)
      reads this, matter, matter[..]
      ensures |r| == matter.Length
      ensures SumVec(r) == SumVec(Forces(matter[..]))
    {
      GravityConservesMomentum(Forces(matter[..]), Particles(matter[..]), g, law, Pairs(matter.Length));
      ApplyPairs(Forces(matter[..]), Particles(matter[..]), g, law, Pairs(matter.Length))
    }

    /** The `beforeTick` handler, given the engine's timestamp, the gravitation law and the
        trigonometric heading of an angle. */
    method Tick(timestamp: real, law: PairLaw, heading: real -> Vec)
      requires Valid()
      modifies this`tick, this`where, this`viewport, ship`throttle, ship`thrust, matter[..]
      ensures Valid()
      ensures ship.State() ==
        Steer(old(ship.State()).(force := old(Gravitated(law))[0]), ship.Settings(), keymap, heading(ship.body.angle))
      ensures ship.thrust == Thrust(ship.throttle, ship.maxThrust)
      ensures forall k :: 1 <= k < matter.Length ==> matter[k].force == old(Gravitated(law))[k]
      ensures forall k :: 1 <= k < matter.Length ==> Poses(matter[..])[k] == old(Poses(matter[..]))[k]
      ensures ParticleOf(ship.body) == old(ParticleOf(ship.body)) && ship.body.angle == old(ship.body.angle)
      ensures tick == timestamp
      ensures where == ship.body.position
      ensures viewport == Add(old(viewport), Sub(ship.body.position, old(where)))
    {
      ghost var gravitated := Gravitated(law);
      ghost var visited := Gravitate(matter, g, law);
      assert ship.body.force == gravitated[0];
      assert Poses(matter[..])[0] == old(Poses(matter[..]))[0];
      assert ship.State() == old(ship.State()).(force := gravitated[0]);
      ghost var angle := ship.body.angle;
      ship.Control(keymap, heading);
      assert ship.body.angle == angle;
      NextThrottleSpec(old(ship.throttle), Held(keymap, KeyShift), Held(keymap, KeyControl));
      tick := timestamp;
      viewport := Add(viewport, Sub(ship.body.position, where));
      where := ship.body.position;
    }
  }
}
