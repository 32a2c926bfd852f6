/**
 * The per-frame `update` of the three actors: an Euler step, a wrap at the
 * screen edges (ship and asteroid only), velocity damping (ship only), the
 * asteroid's self-spin, and re-placing the bounding rectangle.
 * Screen width and height are parameters: the window host supplies them.
 */
module Actors {
  import opened Geometry

  /** The ship's per-frame velocity factor. */
  const Damping: real := 0.99

  /** The asteroid's per-frame change of rotation, in radians. */
  const Spin: real := 0.01

  function Abs(r: real): real
  {
    if r < 0.0 then -r else r
  }

  /**
   * The wrap of one coordinate against a screen extent, with the source's two
   * strict tests in order.
   */
  function WrapAxis(c: real, extent: real): real
  {
    var afterHigh := if c > extent then 0.0 else c;
    if afterHigh < 0.0 then extent else afterHigh
  }

  /**
   * Beyond the extent goes to exactly 0, below 0 goes to exactly the extent,
   * anything in between (the extent itself included) stays, so the result
   * lies on the closed range `[0, extent]`.
   */
  lemma WrapAxisCases(c: real, extent: real)
    ensures c > extent ==> WrapAxis(c, extent) == 0.0
    ensures 0.0 <= extent && c < 0.0 ==> WrapAxis(c, extent) == extent
    ensures 0.0 <= c <= extent ==> WrapAxis(c, extent) == c
    ensures 0.0 <= extent ==> 0.0 <= WrapAxis(c, extent) <= extent
  {
  }

  /** `p` lies on the closed screen `[0, w] x [0, h]`. */
  predicate OnScreen(p: Vec2, w: real, h: real)
  {
    0.0 <= p.x <= w && 0.0 <= p.y <= h
  }

  /** The wrap of a position, each axis on its own. */
  function Wrap(p: Vec2, w: real, h: real): (r: Vec2)
    ensures 0.0 <= w && 0.0 <= h ==> OnScreen(r, w, h)
    ensures 0.0 <= w && 0.0 <= h && OnScreen(p, w, h) ==> r == p
  {
    WrapAxisCases(p.x, w);
    WrapAxisCases(p.y, h);
    Vec2(WrapAxis(p.x, w), WrapAxis(p.y, h))
  }

  /**
   * The asteroid's rotation rule: it spins away from zero, so the sign class
   * (`>= 0` or `< 0`) is kept and the magnitude grows by `Spin`.
   */
  function SpinAway(rotation: real): (r: real)
    ensures (r >= 0.0) == (rotation >= 0.0)
    ensures Abs(r) == Abs(rotation) + Spin
  {
    if rotation >= 0.0 then rotation + Spin else rotation + -Spin
  }

  // ---------------------------------------------------------------- Ship

  datatype ShipState = ShipState(position: Vec2, velocity: Vec2, rotation: real, rect: Rect)

  /** One `Ship::update`. */
  function ShipStep(s: ShipState, w: real, h: real): (r: ShipState)
    ensures r.position == Wrap(Add(s.position, s.velocity), w, h)
    ensures 0.0 <= w && 0.0 <= h ==> OnScreen(r.position, w, h)
    ensures r.velocity == Scale(s.velocity, Damping)
    ensures r.rotation == s.rotation
    ensures Tracks(r.rect, s.rect, r.position)
  {
    var p := Wrap(Add(s.position, s.velocity), w, h);
    ShipState(p, Scale(s.velocity, Damping), s.rotation, s.rect.MoveTo(p))
  }

  /** `n` frames of `Ship::update` with no thrust or turn in between. */
  function ShipFrames(s: ShipState, n: nat, w: real, h: real): ShipState
    decreases n
  {
    if n == 0 then s else ShipFrames(ShipStep(s, w, h), n - 1, w, h)
  }

  function Pow(b: real, n: nat): real
  {
    if n == 0 then 1.0 else b * Pow(b, n - 1)
  }

  /** `0.99^n` is a positive factor, below 1 once a frame has passed, and falls with `n`. */
  lemma {:induction false} DampingPowerBounds(n: nat)
    ensures 0.0 < Pow(Damping, n) <= 1.0
    ensures 0 < n ==> Pow(Damping, n) < 1.0
    ensures Pow(Damping, n + 1) < Pow(Damping, n)
  {
    if n > 0 {
      DampingPowerBounds(n - 1);
    }
  }

  /** A velocity damped once per frame for `n` frames. */
  function Damped(v: Vec2, n: nat): Vec2
    decreases n
  {
    if n == 0 then v else Damped(Scale(v, Damping), n - 1)
  }

  /** Damping `n` times is scaling once by `0.99^n`. */
  lemma {:induction false} DampedIsPower(v: Vec2, n: nat)
    ensures Damped(v, n) == Scale(v, Pow(Damping, n))
    decreases n
  {
    if n > 0 {
      var k := Pow(Damping, n - 1);
      DampedIsPower(Scale(v, Damping), n - 1);
      assert (v.x * Damping) * k == v.x * (Damping * k);
      assert (v.y * Damping) * k == v.y * (Damping * k);
    }
  }

  /** Left alone, a ship's velocity after `n` frames is `0.99^n` times the start. */
  lemma {:induction false} ShipDampsGeometrically(s: ShipState, n: nat, w: real, h: real)
    ensures ShipFrames(s, n, w, h).velocity == Scale(s.velocity, Pow(Damping, n))
    ensures ShipFrames(s, n, w, h).rotation == s.rotation
  {
    ShipFramesDamped(s, n, w, h);
    DampedIsPower(s.velocity, n);
  }

  /** Scaling by a factor in `(0, 1)` shrinks every non-zero component. */
  lemma ScaleShrinks(v: Vec2, p: real)
    requires 0.0 < p < 1.0
    ensures v.x != 0.0 ==> Abs(Scale(v, p).x) < Abs(v.x)
    ensures v.y != 0.0 ==> Abs(Scale(v, p).y) < Abs(v.y)
  {
    ShrinkByFactor(v.x, p);
    ShrinkByFactor(v.y, p);
  }

  lemma ShrinkByFactor(x: real, p: real)
    requires 0.0 < p < 1.0
    ensures x != 0.0 ==> Abs(x * p) < Abs(x)
  {
    if x > 0.0 {
      assert x * p < x * 1.0;
    } else if x < 0.0 {
      assert (-x) * p < (-x) * 1.0;
      assert x * p == -((-x) * p);
    }
  }

  /**
   * Left alone for `n > 0` frames, every non-zero velocity component of a
   * ship is strictly smaller in magnitude than at the start.
   */
  lemma ShipVelocityShrinks(s: ShipState, n: nat, w: real, h: real)
    requires 0 < n
    ensures s.velocity.x != 0.0 ==> Abs(ShipFrames(s, n, w, h).velocity.x) < Abs(s.velocity.x)
    ensures s.velocity.y != 0.0 ==> Abs(ShipFrames(s, n, w, h).velocity.y) < Abs(s.velocity.y)
  {
    ShipDampsGeometrically(s, n, w, h);
    DampingPowerBounds(n);
    ScaleShrinks(s.velocity, Pow(Damping, n));
  }

  lemma {:induction false} ShipFramesDamped(s: ShipState, n: nat, w: real, h: real)
    ensures ShipFrames(s, n, w, h).velocity == Damped(s.velocity, n)
    ensures ShipFrames(s, n, w, h).rotation == s.rotation
    decreases n
  {
    if n > 0 {
      var next := ShipStep(s, w, h);
      assert ShipFrames(s, n, w, h) == ShipFrames(next, n - 1, w, h);
      assert Damped(s.velocity, n) == Damped(next.velocity, n - 1);
      ShipFramesDamped(next, n - 1, w, h);
    }
  }

  /** `a` is strictly slower than `b`: no component grows and one shrinks. */
  predicate Slower(a: Vec2, b: Vec2)
  {
    Abs(a.x) <= Abs(b.x) && Abs(a.y) <= Abs(b.y) && (Abs(a.x) < Abs(b.x) || Abs(a.y) < Abs(b.y))
  }

  /** A moving ship is slower after each `Ship::update`, and a resting one stays at rest. */
  lemma ShipSlowsDown(s: ShipState, w: real, h: real)
    ensures s.velocity != Zero ==> Slower(ShipStep(s, w, h).velocity, s.velocity)
    ensures s.velocity == Zero ==> ShipStep(s, w, h).velocity == Zero
  {
    if s.velocity != Zero {
      assert s.velocity.x != 0.0 || s.velocity.y != 0.0;
    }
  }

  /** `n + 1` frames are `n` frames followed by one more. */
  lemma {:induction false} ShipFramesLast(s: ShipState, n: nat, w: real, h: real)
    ensures ShipFrames(s, n + 1, w, h) == ShipStep(ShipFrames(s, n, w, h), w, h)
    decreases n
  {
    if n > 0 {
      ShipFramesLast(ShipStep(s, w, h), n - 1, w, h);
    }
  }

  /** Damping never brings a moving velocity component to exactly zero. */
  lemma {:induction false} ShipStaysMoving(s: ShipState, n: nat, w: real, h: real)
    ensures (ShipFrames(s, n, w, h).velocity.x == 0.0) == (s.velocity.x == 0.0)
    ensures (ShipFrames(s, n, w, h).velocity.y == 0.0) == (s.velocity.y == 0.0)
    decreases n
  {
    if n > 0 {
      ShipStaysMoving(ShipStep(s, w, h), n - 1, w, h);
    }
  }

  /** Left alone, a moving ship is strictly slower frame after frame. */
  lemma ShipKeepsSlowingDown(s: ShipState, n: nat, w: real, h: real)
    requires s.velocity != Zero
    ensures Slower(ShipFrames(s, n + 1, w, h).velocity, ShipFrames(s, n, w, h).velocity)
  {
    var now := ShipFrames(s, n, w, h);
    ShipFramesLast(s, n, w, h);
    ShipStaysMoving(s, n, w, h);
    assert now.velocity != Zero;
    ShipSlowsDown(now, w, h);
  }

  class Ship {
    var position: Vec2
    var velocity: Vec2
    var rotation: real
    var rect: Rect

    function State(): ShipState
      reads this
    {
      ShipState(position, velocity, rotation, rect)
    }

    constructor (position: Vec2, velocity: Vec2, rotation: real, rect: Rect)
      ensures State() == ShipState(position, velocity, rotation, rect)
    {
      this.position := position;
      this.velocity := velocity;
      this.rotation := rotation;
      this.rect := rect;
    }

    /** `Ship::update` with `w == screen_width()` and `h == screen_height()`. */
    method Update(w: real, h: real)
      modifies this
      ensures State() == ShipStep(old(State()), w, h)
      ensures 0.0 <= w && 0.0 <= h ==> OnScreen(position, w, h)
      ensures velocity == Scale(old(velocity), Damping) && rotation == old(rotation)
      ensures Tracks(rect, old(rect), position)
    {
      position := Add(position, velocity);
      if position.x > w {
        position := position.(x := 0.0);
      }
      if position.x < 0.0 {
        position := position.(x := w);
      }
      if position.y > h {
        position := position.(y := 0.0);
      }
      if position.y < 0.0 {
        position := position.(y := h);
      }
      velocity := Scale(velocity, Damping);
      rect := rect.MoveTo(position);
    }
  }

  // -------------------------------------------------------------- Bullet

  datatype BulletState = BulletState(position: Vec2, velocity: Vec2, rect: Rect, createdAt: real, collided: bool)

  /** One `Bullet::update`: a straight step, no wrap and no damping. */
  function BulletStep(b: BulletState): (r: BulletState)
    ensures r.position == Add(b.position, b.velocity)
    ensures r.velocity == b.velocity && r.createdAt == b.createdAt && r.collided == b.collided
    ensures Tracks(r.rect, b.rect, r.position)
  {
    var p := Add(b.position, b.velocity);
    b.(position := p, rect := b.rect.MoveTo(p))
  }

  function BulletFrames(b: BulletState, n: nat): BulletState
    decreases n
  {
    if n == 0 then b else BulletFrames(BulletStep(b), n - 1)
  }

  /** After `n` frames a bullet is `n` velocities further along, wherever that is. */
  lemma {:induction false} BulletTravelsStraight(b: BulletState, n: nat)
    ensures BulletFrames(b, n).position == Add(b.position, Scale(b.velocity, n as real))
    ensures BulletFrames(b, n).velocity == b.velocity
    ensures BulletFrames(b, n).createdAt == b.createdAt && BulletFrames(b, n).collided == b.collided
    ensures 0 < n ==> Tracks(BulletFrames(b, n).rect, b.rect, BulletFrames(b, n).position)
    decreases n
  {
    if n > 0 {
      BulletTravelsStraight(BulletStep(b), n - 1);
    }
  }

  class Bullet {
    var position: Vec2
    var velocity: Vec2
    var rect: Rect
    var createdAt: real
    var collided: bool

    function State(): BulletState
      reads this
    {
      BulletState(position, velocity, rect, createdAt, collided)
    }

    constructor (position: Vec2, velocity: Vec2, rect: Rect, createdAt: real, collided: bool)
      ensures State() == BulletState(position, velocity, rect, createdAt, collided)
    {
      this.position := position;
      this.velocity := velocity;
      this.rect := rect;
      this.createdAt := createdAt;
      this.collided := collided;
    }

    /** `Bullet::update`. */
    method Update()
      modifies this
      ensures State() == BulletStep(old(State()))
      ensures position == Add(old(position), old(velocity))
      ensures velocity == old(velocity) && createdAt == old(createdAt) && collided == old(collided)
      ensures Tracks(rect, old(rect), position)
    {
      position := Add(position, velocity);
      rect := rect.MoveTo(position);
    }
  }

  // ------------------------------------------------------------ Asteroid

  datatype AsteroidState = AsteroidState(position: Vec2, velocity: Vec2, rotation: real, rect: Rect, collided: bool, large: bool)

  /** One `Asteroid::update`: wraps like the ship, keeps its velocity, spins. */
  function AsteroidStep(a: AsteroidState, w: real, h: real): (r: AsteroidState)
    ensures r.position == Wrap(Add(a.position, a.velocity), w, h)
    ensures 0.0 <= w && 0.0 <= h ==> OnScreen(r.position, w, h)
    ensures r.velocity == a.velocity && r.collided == a.collided && r.large == a.large
    ensures (r.rotation >= 0.0) == (a.rotation >= 0.0)
    ensures Abs(r.rotation) == Abs(a.rotation) + Spin
    ensures Tracks(r.rect, a.rect, r.position)
  {
    var p := Wrap(Add(a.position, a.velocity), w, h);
    a.(position := p, rotation := SpinAway(a.rotation), rect := a.rect.MoveTo(p))
  }

  function AsteroidFrames(a: AsteroidState, n: nat, w: real, h: real): AsteroidState
    decreases n
  {
    if n == 0 then a else AsteroidFrames(AsteroidStep(a, w, h), n - 1, w, h)
  }

  /** After `n` frames an asteroid has spun `n * Spin` further away from zero. */
  lemma {:induction false} AsteroidSpinsSteadily(a: AsteroidState, n: nat, w: real, h: real)
    ensures AsteroidFrames(a, n, w, h).rotation ==
              if a.rotation >= 0.0 then a.rotation + (n as real) * Spin
              else a.rotation - (n as real) * Spin
    decreases n
  {
    if n > 0 {
      var next := AsteroidStep(a, w, h);
      AsteroidSpinsSteadily(next, n - 1, w, h);
      assert next.rotation == if a.rotation >= 0.0 then a.rotation + Spin else a.rotation - Spin;
      assert (next.rotation >= 0.0) == (a.rotation >= 0.0);
    }
  }

  /**
   * After `n` frames an asteroid still moves with its launch velocity, keeps
   * its flags, and is on screen once it has moved.
   */
  lemma {:induction false} AsteroidKeepsCourse(a: AsteroidState, n: nat, w: real, h: real)
    ensures AsteroidFrames(a, n, w, h).velocity == a.velocity
    ensures AsteroidFrames(a, n, w, h).collided == a.collided
    ensures AsteroidFrames(a, n, w, h).large == a.large
    ensures 0 < n && 0.0 <= w && 0.0 <= h ==> OnScreen(AsteroidFrames(a, n, w, h).position, w, h)
    decreases n
  {
    if n > 0 {
      var next := AsteroidStep(a, w, h);
      assert AsteroidFrames(a, n, w, h) == AsteroidFrames(next, n - 1, w, h);
      AsteroidKeepsCourse(next, n - 1, w, h);
      if n == 1 {
        assert AsteroidFrames(next, 0, w, h) == next;
      }
    }
  }

  class Asteroid {
    var position: Vec2
    var velocity: Vec2
    var rotation: real
    var rect: Rect
    var collided: bool
    var large: bool

    function State(): AsteroidState
      reads this
    {
      AsteroidState(position, velocity, rotation, rect, collided, large)
    }

    constructor (position: Vec2, velocity: Vec2, rotation: real, rect: Rect, collided: bool, large: bool)
      ensures State() == AsteroidState(position, velocity, rotation, rect, collided, large)
    {
      this.position := position;
      this.velocity := velocity;
      this.rotation := rotation;
      this.rect := rect;
      this.collided := collided;
      this.large := large;
    }

    /** `Asteroid::update` with `w == screen_width()` and `h == screen_height()`. */
    method Update(w: real, h: real)
      modifies this
      ensures State() == AsteroidStep(old(State()), w, h)
      ensures 0.0 <= w && 0.0 <= h ==> OnScreen(position, w, h)
      ensures velocity == old(velocity) && collided == old(collided) && large == old(large)
      ensures old(rotation) >= 0.0 ==> rotation == old(rotation) + Spin
      ensures old(rotation) < 0.0 ==> rotation == old(rotation) - Spin
      ensures Tracks(rect, old(rect), position)
    {
      position := Add(position, velocity);
      if position.x > w {
        position := position.(x := 0.0);
      }
      if position.x < 0.0 {
        position := position.(x := w);
      }
      if position.y > h {
        position := position.(y := 0.0);
      }
      if position.y < 0.0 {
        position := position.(y := h);
      }
      if rotation >= 0.0 {
        rotation := rotation + Spin;
      } else {
        rotation := rotation + -Spin;
      }
      rect := rect.MoveTo(position);
    }
  }

  // ------------------------------------------------------ Concrete cases

  /** A coordinate just below 0 lands exactly on the far edge, not inside it. */
  lemma WrapLandsOnFarEdge()
    ensures WrapAxis(-1.0, 640.0) == 640.0
    ensures WrapAxis(640.0, 640.0) == 640.0
    ensures WrapAxis(641.0, 640.0) == 0.0
  {
  }

  /** A ship at (100, 100) moving (0, -5) on a 640 x 480 screen. */
  lemma ShipSingleStepExample(rect: Rect)
    ensures ShipStep(ShipState(Vec2(100.0, 100.0), Vec2(0.0, -5.0), 0.0, rect), 640.0, 480.0) ==
              ShipState(Vec2(100.0, 95.0), Vec2(0.0, -4.95), 0.0, rect.(x := 100.0, y := 95.0))
  {
  }
}
