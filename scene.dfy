// The script-level state of script.js (the particles array, the mouse point
// and the drawing context) gathered in one object, with init() (lines 79-86),
// one frame of animate() (lines 89-103) and the click handler (lines 109-124).
module Scenes {
  import opened Particles
  import opened Culling
  import opened RandomRange

  class Scene {
    var particles: seq<Particle>
    var mouseX: real
    var mouseY: real
    const ctx: Canvas

    /** No particle object sits in the array twice: every click pushes new objects. */
    ghost predicate Valid()
      reads this
    {
      Distinct(particles)
    }

    /** The values of the particles, in array order. */
    ghost function Snapshot(): seq<PState>
      reads this, particles
    {
      Values(particles)
    }

    /** Script start-up: the mouse at the centre of the window (lines 7-10),
        then init() (line 105). */
    constructor (innerWidth: real, innerHeight: real)
      ensures Valid() && particles == []
      ensures mouseX == innerWidth / 2.0 && mouseY == innerHeight / 2.0
      ensures fresh(ctx) && ctx.log == []
    {
      mouseX := innerWidth / 2.0;
      mouseY := innerHeight / 2.0;
      ctx := new Canvas();
      particles := [];
    }

    /** init(): the particles array is replaced by an empty one. */
    method Init()
      modifies this
      ensures Valid() && particles == [] && Snapshot() == []
      ensures mouseX == old(mouseX) && mouseY == old(mouseY)
    {
      particles := [];
    }

    /** Where the frame loop stands: of r0, the array at the start of the
        frame with values s0, the particles below j have met their fate (the
        array is Arranged), each object holds its value after its fate, and
        the context has received the draws of the updated ones. */
    ghost predicate Pass(r0: seq<Particle>, s0: seq<PState>, log0: seq<DrawCall>, j: nat, i: nat)
      reads this, r0, ctx
    {
      && Arranged(r0, s0, j, i, particles)
      && (forall k :: 0 <= k < |r0| ==> r0[k].Val() == if k < j then Effect(s0[k], Fates(s0)[k]) else s0[k])
      && ctx.log == log0 + Draws(s0, Fates(s0), j)
    }

    /** One frame of animate(): the loop over the particles array. */
    method Animate()
      requires Valid()
      modifies this, particles, ctx
      ensures Valid() && mouseX == old(mouseX) && mouseY == old(mouseY)
      ensures |particles| <= |old(particles)|
      ensures particles == Pick(old(particles), Kept(Fates(old(Snapshot())), |old(particles)|))
      ensures forall k :: 0 <= k < |old(particles)| ==>
        old(particles)[k].Val() == Effect(old(Snapshot())[k], Fates(old(Snapshot()))[k])
      ensures Snapshot() == Tick(old(Snapshot()))
      ensures ctx.log == old(ctx.log) + Draws(old(Snapshot()), Fates(old(Snapshot())), |old(particles)|)
    {
      ghost var r0 := particles;
      ghost var s0 := Snapshot();
      ghost var j := 0;
      ArrangedStart(r0, s0);
      assert old(ctx.log) + [] == old(ctx.log);
      var i := 0;
      while i < |particles|
        invariant Pass(r0, s0, old(ctx.log), j, i)
        invariant mouseX == old(mouseX) && mouseY == old(mouseY)
        decreases |r0| - j
      {
        j := Visit(r0, s0, old(ctx.log), j, i);
        i := i + 1;
      }
      PassComplete(r0, s0, old(ctx.log), j, i);
    }

    /** When the index has run off the end of the array, every particle has
        met its fate: the array holds the kept objects, without repeats, and
        their values are those of Tick. */
    lemma PassComplete(r0: seq<Particle>, s0: seq<PState>, log0: seq<DrawCall>, j: nat, i: nat)
      requires Distinct(r0) && Pass(r0, s0, log0, j, i) && i >= |particles|
      ensures Valid()
      ensures particles == Pick(r0, Kept(Fates(s0), |r0|))
      ensures forall k :: 0 <= k < |r0| ==> r0[k].Val() == Effect(s0[k], Fates(s0)[k])
      ensures Snapshot() == Tick(s0)
      ensures ctx.log == log0 + Draws(s0, Fates(s0), |r0|)
    {
      ArrangedEnd(r0, s0, j, i, particles);
      ghost var ids := Kept(Fates(s0), |r0|);
      PickDistinct(r0, ids);
      forall m | 0 <= m < |particles|
        ensures Snapshot()[m] == Tick(s0)[m]
      {
        assert |particles| == |ids|;
        TickAt(s0, m);
        assert particles[m] == r0[ids[m]];
      }
    }

    /** The body of the loop for index i: a particle whose alpha is below zero
        is spliced out, any other is updated. */
    method Visit(ghost r0: seq<Particle>, ghost s0: seq<PState>, ghost log0: seq<DrawCall>, ghost j: nat, i: nat)
      returns (ghost j': nat)
      requires Distinct(r0) && Pass(r0, s0, log0, j, i) && i < |particles|
      modifies this, particles[i], ctx
      ensures mouseX == old(mouseX) && mouseY == old(mouseY)
      ensures j < j' <= |r0|
      ensures Pass(r0, s0, log0, j', i + 1)
    {
      if particles[i].alpha < 0.0 {
        j' := SpliceStep(r0, s0, log0, j, i);
      } else {
        UpdateStep(r0, s0, log0, j, i);
        j' := j + 1;
      }
    }

    /** particles.splice(i, 1) of the particle at slot i, whose alpha is below zero. */
    method SpliceStep(ghost r0: seq<Particle>, ghost s0: seq<PState>, ghost log0: seq<DrawCall>, ghost j: nat, i: nat)
      returns (ghost j': nat)
      requires Pass(r0, s0, log0, j, i) && i < |particles| && particles[i].alpha < 0.0
      modifies this
      ensures mouseX == old(mouseX) && mouseY == old(mouseY)
      ensures j' == if j + 1 < |r0| then j + 2 else j + 1
      ensures Pass(r0, s0, log0, j', i + 1)
    {
      ArrangedAt(r0, s0, j, i, particles);
      ArrangedAfterRemoval(r0, s0, j, i, particles);
      j' := if j + 1 < |r0| then j + 2 else j + 1;
      particles := particles[..i] + particles[i + 1..];
    }

    /** particle.update() on the particle at slot i, whose alpha is not below zero. */
    method UpdateStep(ghost r0: seq<Particle>, ghost s0: seq<PState>, ghost log0: seq<DrawCall>, ghost j: nat, i: nat)
      requires Distinct(r0) && Pass(r0, s0, log0, j, i) && i < |particles| && particles[i].alpha >= 0.0
      modifies particles[i], ctx
      ensures unchanged(this)
      ensures Pass(r0, s0, log0, j + 1, i + 1)
    {
      ArrangedAt(r0, s0, j, i, particles);
      ArrangedAfterUpdate(r0, s0, j, i, particles);
      particles[i].Update(ctx);
    }

    /** The click handler: the mouse point moves to the click, and
        ParticleCount new particles are pushed, built from the draws. */
    method Click(clientX: real, clientY: real, draws: seq<BurstDraw>)
      requires Valid()
      requires |draws| == ParticleCount
      requires forall i :: 0 <= i < |draws| ==> ValidDraw(draws[i])
      modifies this
      ensures Valid() && mouseX == clientX && mouseY == clientY
      ensures |particles| == |old(particles)| + ParticleCount
      ensures particles[..|old(particles)|] == old(particles)
      ensures forall k :: |old(particles)| <= k < |particles| ==> fresh(particles[k])
      ensures Snapshot() == old(Snapshot()) + Burst(clientX, clientY, draws)
    {
      mouseX := clientX;
      mouseY := clientY;
      ghost var n0 := |particles|;
      for i := 0 to ParticleCount
        invariant |particles| == n0 + i
        invariant particles[..n0] == old(particles)
        invariant forall k :: n0 <= k < n0 + i ==> fresh(particles[k])
        invariant Valid() && mouseX == clientX && mouseY == clientY
        invariant forall k :: 0 <= k < n0 ==> particles[k].Val() == old(particles[k].Val())
        invariant forall k :: 0 <= k < i ==> particles[n0 + k].Val() == Spawned(clientX, clientY, draws[k])
      {
        var d := draws[i];
        SpriteIndexInRange(d.spriteDraw);
        var sprite := CachedSprites[RandomIntFromRange(0, 1, d.spriteDraw)];
        var p := new Particle(mouseX, mouseY, sprite, Component(d.cos, d.randX), Component(d.sin, d.randY));
        assert p.Val() == Spawned(clientX, clientY, d);
        particles := particles + [p];
      }
      ghost var burst := Burst(clientX, clientY, draws);
      forall m | 0 <= m < |particles|
        ensures Snapshot()[m] == (old(Snapshot()) + burst)[m]
      {
        if m < n0 {
          assert old(particles)[m] == particles[m];
        }
      }
    }
  }

  /** The values held by a sequence of particle objects. */
  ghost function Values(ps: seq<Particle>): (v: seq<PState>)
    reads ps
    ensures |v| == |ps|
    ensures forall k :: 0 <= k < |ps| ==> v[k] == ps[k].Val()
  {
    if ps == [] then [] else Values(ps[..|ps| - 1]) + [ps[|ps| - 1].Val()]
  }

  /** The values of the particles one click adds, in push order. */
  ghost function Burst(mx: real, my: real, draws: seq<BurstDraw>): (b: seq<PState>)
    requires forall i :: 0 <= i < |draws| ==> ValidDraw(draws[i])
    ensures |b| == |draws|
    ensures forall i :: 0 <= i < |b| ==> b[i].x == mx && b[i].y == my && b[i].alpha == 1.0
    ensures forall i :: 0 <= i < |b| ==> b[i].sprite in CachedSprites
  {
    seq(|draws|, i requires 0 <= i < |draws| => Spawned(mx, my, draws[i]))
  }
}
