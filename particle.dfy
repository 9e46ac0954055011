// The Particle class of script.js (lines 38-69) and the constants it uses
// (lines 11-12, 73-74). Positions, velocities and alpha are exact reals:
// IEEE-754 rounding is not modelled.
module Particles {
  import opened RandomRange

  const Gravity: real := 0.02
  const Friction: real := 0.99
  /** The amount update() takes off alpha on every call. */
  const Fade: real := 0.005
  const ParticleCount: nat := 450
  const Power: real := 20.0

  /** A pre-rendered sprite, identified by its fill colour; the raster itself is not modelled. */
  datatype Sprite = Sprite(fill: string)

  /** The array returned by createCachedCanvases: a red and a green dot. */
  const CachedSprites: seq<Sprite> := [Sprite("#dc2626"), Sprite("#16a34a")]

  /** The value of a particle's fields at one moment; the velocity object {x, y}
      of the source is the pair vx, vy. */
  datatype PState = PState(x: real, y: real, vx: real, vy: real, sprite: Sprite, alpha: real)

  /** What one call of draw() hands to the canvas: sprite, position and globalAlpha. */
  datatype DrawCall = DrawCall(sprite: Sprite, x: real, y: real, alpha: real)

  function DrawOf(p: PState): DrawCall {
    DrawCall(p.sprite, p.x, p.y, p.alpha)
  }

  /** One call of update() on a particle's values: friction, then gravity,
      then the move by the new velocity, then the fade. */
  function Step(p: PState): PState {
    var vx := p.vx * Friction;
    var vy := p.vy * Friction + Gravity;
    PState(p.x + vx, p.y + vy, vx, vy, p.sprite, p.alpha - Fade)
  }

  /** n calls of update() in a row. */
  function Steps(p: PState, n: nat): PState {
    if n == 0 then p else Step(Steps(p, n - 1))
  }

  function Pow(b: real, n: nat): real {
    if n == 0 then 1.0 else b * Pow(b, n - 1)
  }

  /** The drawing context: the draw calls it has received, in order. */
  class Canvas {
    ghost var log: seq<DrawCall>

    constructor ()
      ensures log == []
    {
      log := [];
    }
  }

  class Particle {
    var x: real
    var y: real
    var sprite: Sprite
    var vx: real
    var vy: real
    var alpha: real

    ghost function Val(): PState
      reads this
    {
      PState(x, y, vx, vy, sprite, alpha)
    }

    constructor (x: real, y: real, sprite: Sprite, vx: real, vy: real)
      ensures Val() == PState(x, y, vx, vy, sprite, 1.0)
    {
      this.x := x;
      this.y := y;
      this.sprite := sprite;
      this.vx := vx;
      this.vy := vy;
      this.alpha := 1.0;
    }

    /** draw(): blits the sprite at the current position with the current alpha. */
    method Draw(ctx: Canvas)
      modifies ctx
      ensures ctx.log == old(ctx.log) + [DrawOf(Val())]
    {
      ctx.log := ctx.log + [DrawCall(sprite, x, y, alpha)];
    }

    /** update(): draws the particle as it is, then integrates one step. */
    method Update(ctx: Canvas)
      modifies this, ctx
      ensures vx == old(vx) * Friction
      ensures vy == old(vy) * Friction + Gravity
      ensures x == old(x) + vx && y == old(y) + vy
      ensures alpha == old(alpha) - Fade && alpha < old(alpha)
      ensures sprite == old(sprite)
      ensures Val() == Step(old(Val()))
      ensures ctx.log == old(ctx.log) + [DrawOf(old(Val()))]
    {
      Draw(ctx);
      vx := vx * Friction;
      vy := vy * Friction;
      vy := vy + Gravity;
      x := x + vx;
      y := y + vy;
      alpha := alpha - Fade;
    }
  }

  /** Closed forms of n updates with exact arithmetic. The horizontal speed
      decays geometrically; the vertical speed tends to the terminal speed
      Gravity / (1 - Friction) = 2; each step moves by the new velocity, which
      sums to Friction / (1 - Friction) = 99 times the lost speed. */
  lemma {:induction false} StepsClosedForm(p: PState, n: nat)
    ensures Steps(p, n).vx == Pow(Friction, n) * p.vx
    ensures Steps(p, n).vy == 2.0 + Pow(Friction, n) * (p.vy - 2.0)
    ensures Steps(p, n).x == p.x + 99.0 * p.vx * (1.0 - Pow(Friction, n))
    ensures Steps(p, n).y == p.y + 2.0 * n as real + 99.0 * (p.vy - 2.0) * (1.0 - Pow(Friction, n))
    ensures Steps(p, n).alpha == p.alpha - Fade * n as real
    ensures Steps(p, n).sprite == p.sprite
  {
    if n > 0 {
      StepsClosedForm(p, n - 1);
      var q := Steps(p, n - 1);
      var f := Pow(Friction, n - 1);
      assert Pow(Friction, n) == Friction * f;
      assert Steps(p, n) == Step(q);
      calc {
        Step(q).vx;
        == q.vx * Friction;
        == f * p.vx * Friction;
        == Pow(Friction, n) * p.vx;
      }
      calc {
        Step(q).vy;
        == q.vy * Friction + Gravity;
        == (2.0 + f * (p.vy - 2.0)) * Friction + Gravity;
        == 2.0 + Friction * f * (p.vy - 2.0);
      }
      calc {
        Step(q).x;
        == q.x + Step(q).vx;
        == p.x + 99.0 * p.vx * (1.0 - f) + Friction * f * p.vx;
        == p.x + 99.0 * p.vx * (1.0 - Friction * f);
      }
      calc {
        Step(q).y;
        == q.y + Step(q).vy;
        == p.y + 2.0 * (n - 1) as real + 99.0 * (p.vy - 2.0) * (1.0 - f) + 2.0 + Friction * f * (p.vy - 2.0);
        == p.y + 2.0 * n as real + 99.0 * (p.vy - 2.0) * (1.0 - Friction * f);
      }
    }
  }

  /** One draw set of a click for the particle with batch index i: the sprite
      draw, cos and sin of angleIncrement * i, and the two separate
      Math.random() draws that scale the x and the y component. */
  datatype BurstDraw = BurstDraw(spriteDraw: real, cos: real, sin: real, randX: real, randY: real)

  predicate ValidDraw(d: BurstDraw) {
    0.0 <= d.spriteDraw < 1.0
  }

  /** One velocity component of a spawned particle: Math.cos or Math.sin of
      the particle's angle, times a Math.random() draw, times POWER. */
  function Component(dir: real, rand: real): real {
    dir * rand * Power
  }

  /** The particle built by `new Particle(...)` in the click handler (script.js:114-122). */
  function Spawned(mx: real, my: real, d: BurstDraw): (p: PState)
    requires ValidDraw(d)
    ensures p.x == mx && p.y == my && p.alpha == 1.0
    ensures p.sprite in CachedSprites
  {
    SpriteIndexInRange(d.spriteDraw);
    PState(mx, my, Component(d.cos, d.randX), Component(d.sin, d.randY),
           CachedSprites[RandomIntFromRange(0, 1, d.spriteDraw)], 1.0)
  }

  /** Every spawned velocity component is below POWER in magnitude when the
      direction factor is a cosine or sine and the scale a draw in [0, 1). */
  lemma SpawnedSpeedBound(mx: real, my: real, d: BurstDraw)
    requires ValidDraw(d)
    requires -1.0 <= d.cos <= 1.0 && -1.0 <= d.sin <= 1.0
    requires 0.0 <= d.randX < 1.0 && 0.0 <= d.randY < 1.0
    ensures -Power < Spawned(mx, my, d).vx < Power
    ensures -Power < Spawned(mx, my, d).vy < Power
  {
    ComponentBound(d.cos, d.randX);
    ComponentBound(d.sin, d.randY);
  }

  lemma ComponentBound(dir: real, rand: real)
    requires -1.0 <= dir <= 1.0 && 0.0 <= rand < 1.0
    ensures -Power < Component(dir, rand) < Power
  {
    if dir >= 0.0 {
      assert dir * rand <= rand;
    } else {
      assert -(dir * rand) <= rand;
    }
  }
}
