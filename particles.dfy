/** Particle groups (src/particles.js): bursts of `PARTICLE_GROUP_SIZE` particles popped
    from a pool, faded by one animation, and recycled together when it finishes. */
module Particles {
  import opened Lists
  import opened Engine

  const PARTICLE_GROUP_SIZE: nat := 20
  const PARTICLE_PREPARE_COUNT: nat := 100
  const PARTICLE_SIZE: real := 10.0
  const PARTICLE_MIN_SPEED: real := 0.1
  const PARTICLE_MAX_SPEED: real := 0.5

  /** Direction `i` of the table, as a fraction of a full turn: `i` times the delta
      angle `2π / PARTICLE_GROUP_SIZE`. */
  function Turn(i: int): real {
    i as real / PARTICLE_GROUP_SIZE as real
  }

  /** The loop that fills `PARTICLE_DIRECTIONS`: the unit vector `(1, 0)` rotated by `i`
      delta angles, for each `i` below `PARTICLE_GROUP_SIZE`. */
  method BuildDirections() returns (dirs: seq<Velocity>)
    ensures |dirs| == PARTICLE_GROUP_SIZE
    ensures forall i :: 0 <= i < |dirs| ==> dirs[i] == Polar(Turn(i), 1.0)
  {
    dirs := [];
    var i := 0;
    while i < PARTICLE_GROUP_SIZE
      invariant 0 <= i <= PARTICLE_GROUP_SIZE && |dirs| == i
      invariant forall k :: 0 <= k < i ==> dirs[k] == Polar(Turn(k), 1.0)
    {
      dirs := dirs + [Polar(Turn(i), 1.0)];
      i := i + 1;
    }
  }

  /** The table's directions go once around the circle: each lies in `[0, 1)` of a
      turn, and they strictly increase, so no two particles of a group fly the same
      way. */
  lemma TurnsSpread(i: int, j: int)
    requires 0 <= i < j < PARTICLE_GROUP_SIZE
    ensures 0.0 <= Turn(i) < Turn(j) < 1.0
  {
  }

  /** A speed `particleSpeedRandomizer.float(PARTICLE_MIN_SPEED, PARTICLE_MAX_SPEED)`
      can draw. */
  predicate ValidSpeeds(speeds: seq<real>) {
    && |speeds| == PARTICLE_GROUP_SIZE
    && forall i :: 0 <= i < |speeds| ==> PARTICLE_MIN_SPEED <= speeds[i] <= PARTICLE_MAX_SPEED
  }

  /** A particle group: its particles and the animation that fades them. */
  class Group {
    const particles: seq<Node>
    const animation: Animation

    constructor (particles: seq<Node>, animation: Animation)
      ensures this.particles == particles && this.animation == animation
    {
      this.particles, this.animation := particles, animation;
    }
  }

  /** Particle `k` of a burst from `(x, y)`: at the spawn point, flying along direction
      `k` with the speed drawn for it. */
  ghost predicate Launched(ps: seq<Node>, x: real, y: real, speeds: seq<real>)
    reads ps`x, ps`y, ps`velocity
  {
    && |ps| <= |speeds|
    && forall k :: 0 <= k < |ps| ==> ps[k].x == x && ps[k].y == y && ps[k].velocity == Polar(Turn(k), speeds[k])
  }

  /** A particle launched on the next direction extends a launched list. */
  lemma LaunchedAppend(ps: seq<Node>, p: Node, x: real, y: real, speeds: seq<real>)
    requires Launched(ps, x, y, speeds) && |ps| < |speeds|
    requires p.x == x && p.y == y && p.velocity == Polar(Turn(|ps|), speeds[|ps|])
    ensures Launched(ps + [p], x, y, speeds)
  {
  }

  /** An `update` tick of a group's animation, whose value runs from 1 to 0: the
      animation's value is `1 - v` for the eased progress `v`, and every particle's
      opacity is set to that value. */
  method Fade(g: Group, v: real)
    requires 0.0 <= v <= 1.0 && g.animation.from == 1.0 && g.animation.to == 0.0
    modifies g.animation`value, g.particles`opacity
    ensures g.animation.value == 1.0 - v && 0.0 <= g.animation.value <= 1.0
    ensures forall k :: 0 <= k < |g.particles| ==> g.particles[k].opacity == g.animation.value
  {
    g.animation.Tick(v);
    var ps := g.particles;
    var i := 0;
    while i < |ps|
      invariant 0 <= i <= |ps| && g.animation.value == 1.0 - v
      invariant forall k :: 0 <= k < i ==> ps[k].opacity == g.animation.value
    {
      ps[i].opacity := g.animation.value;
      i := i + 1;
    }
  }

  /** The module's two pools: `particlePool` (no `clear` hook) and `animationPool`
      (animations from 1 to 0, no `clear` hook), each with `PARTICLE_PREPARE_COUNT`
      objects created eagerly. */
  class Emitter {
    const particlePool: NodePool
    const animationPool: AnimationPool

    /** The pools' fixed configuration. */
    predicate Configured() {
      && particlePool.hook == NoClear
      && !animationPool.stopsOnClear && animationPool.from == 1.0 && animationPool.to == 0.0
    }

    constructor ()
      ensures Configured() && fresh(particlePool) && fresh(animationPool)
      ensures |particlePool.free| == PARTICLE_PREPARE_COUNT && Distinct(particlePool.free)
      ensures MadeBy(particlePool.free, particlePool)
      ensures |animationPool.free| == PARTICLE_PREPARE_COUNT && animationPool.Uniform()
    {
      particlePool := new NodePool(NoClear, PARTICLE_SIZE, PARTICLE_SIZE, PARTICLE_PREPARE_COUNT);
      animationPool := new AnimationPool(false, 1.0, 0.0, PARTICLE_PREPARE_COUNT);
    }

    /** One pass of `createParticles`' loop: pop a particle, put it at `(x, y)`, give it
        direction `i` and speed `speeds[i]`, and append it. */
    method EmitStep(x: real, y: real, speeds: seq<real>, ps: seq<Node>, ghost free0: seq<Node>)
      returns (ps': seq<Node>)
      requires |ps| < |speeds| && Popped(ps, 0, |ps|, free0, particlePool.free)
      requires Launched(ps, x, y, speeds)
      modifies particlePool`free, free0`x, free0`y, free0`velocity
      ensures Popped(ps', 0, |ps'|, free0, particlePool.free) && |ps'| == |ps| + 1
      ensures Launched(ps', x, y, speeds) && ps' == ps + [ps'[|ps|]]
      ensures ps'[|ps|] in free0 || (fresh(ps'[|ps|]) && ps'[|ps|].maker == particlePool)
    {
      ghost var free := particlePool.free;
      assert free != [] ==> free[|free| - 1] == free0[|free| - 1];
      var p := particlePool.Pop();
      PopStep(ps, 0, |ps|, free0, free, p);
      p.x, p.y := x, y;
      p.velocity := Polar(Turn(|ps|), speeds[|ps|]);
      ps' := ps + [p];
      LaunchedAppend(ps, p, x, y, speeds);
    }

    /** `createParticles(x, y)`: `PARTICLE_GROUP_SIZE` particles popped from the pool, the
        `k`-th at `(x, y)` flying along direction `k` with speed `speeds[k]`; the
        particles are the most recently freed ones, in pop order, then new ones. */
    method CreateParticles(x: real, y: real, speeds: seq<real>) returns (ps: seq<Node>)
      requires ValidSpeeds(speeds) && Distinct(particlePool.free)
      modifies particlePool`free, particlePool.free`x, particlePool.free`y, particlePool.free`velocity
      ensures |ps| == PARTICLE_GROUP_SIZE && Launched(ps, x, y, speeds)
      ensures Popped(ps, 0, PARTICLE_GROUP_SIZE, old(particlePool.free), particlePool.free)
      ensures forall k :: 0 <= k < |ps| ==>
        ps[k] in old(particlePool.free) || (fresh(ps[k]) && ps[k].maker == particlePool)
    {
      ghost var free0 := particlePool.free;
      ps := [];
      PoppedStart(ps, free0);
      while |ps| < PARTICLE_GROUP_SIZE
        invariant |ps| <= PARTICLE_GROUP_SIZE && Popped(ps, 0, |ps|, free0, particlePool.free)
        invariant Launched(ps, x, y, speeds)
        invariant forall k :: 0 <= k < |ps| ==> ps[k] in free0 || (fresh(ps[k]) && ps[k].maker == particlePool)
        decreases PARTICLE_GROUP_SIZE - |ps|
      {
        ps := EmitStep(x, y, speeds, ps, free0);
      }
    }

    /** `recycleParticleGroup(group)`: every particle that has a parent is removed from
        it, every particle is pushed back to the pool in order, and then the animation
        is pushed back. Neither pool has a `clear` hook, so the animation keeps its
        listeners and its running state. */
    method RecycleGroup(world: World, g: Group)
      requires Configured() && animationPool.Uniform() && g.animation.from == 1.0 && g.animation.to == 0.0
      modifies particlePool`free, g.particles`attached, g.particles`listeners
      modifies animationPool`free, g.animation`running, g.animation`listeners
      ensures particlePool.free == old(particlePool.free) + g.particles
      ensures forall k :: 0 <= k < |g.particles| ==> !g.particles[k].attached
      ensures animationPool.free == old(animationPool.free) + [g.animation] && animationPool.Uniform()
      ensures g.animation.running == old(g.animation.running) && g.animation.listeners == old(g.animation.listeners)
      ensures forall k :: 0 <= k < |g.particles| ==> g.particles[k].listeners == old(g.particles[k].listeners)
    {
      var ps := g.particles;
      ghost var free0 := particlePool.free;
      var i := 0;
      while i < |ps|
        invariant 0 <= i <= |ps| && particlePool.free == free0 + ps[..i]
        invariant forall k :: 0 <= k < i ==> !ps[k].attached
        invariant forall k :: 0 <= k < |ps| ==> ps[k].listeners == old(ps[k].listeners)
        modifies particlePool`free, ps`attached, ps`listeners
      {
        if ps[i].attached {
          world.RemoveChild(ps[i]);
        }
        assert ps[..i + 1] == ps[..i] + [ps[i]];
        particlePool.Push(ps[i]);
        i := i + 1;
      }
      assert ps[..i] == ps;
      animationPool.Push(g.animation);
    }

    /** `createParticleGroup(x, y, t)`: the particles, and an animation popped from its
        pool that gets an `update` listener (`Fade`), is started, and gets a one-shot
        `finish` listener (`FinishGroup`). */
    method CreateGroup(x: real, y: real, speeds: seq<real>) returns (g: Group)
      requires Configured() && ValidSpeeds(speeds) && Distinct(particlePool.free) && animationPool.Uniform()
      modifies particlePool`free, particlePool.free`x, particlePool.free`y, particlePool.free`velocity
      modifies animationPool`free, animationPool.free`listeners, animationPool.free`running, animationPool.free`value
      ensures fresh(g) && |g.particles| == PARTICLE_GROUP_SIZE && Launched(g.particles, x, y, speeds)
      ensures Popped(g.particles, 0, PARTICLE_GROUP_SIZE, old(particlePool.free), particlePool.free)
      ensures forall k :: 0 <= k < |g.particles| ==>
        g.particles[k] in old(particlePool.free) || (fresh(g.particles[k]) && g.particles[k].maker == particlePool)
      ensures old(animationPool.free) != [] ==>
        g.animation == old(animationPool.free)[|old(animationPool.free)| - 1] &&
        animationPool.free == old(animationPool.free)[..|old(animationPool.free)| - 1]
      ensures old(animationPool.free) == [] ==> fresh(g.animation) && animationPool.free == []
      ensures animationPool.Uniform() && g.animation.from == 1.0 && g.animation.to == 0.0
      ensures g.animation.running && g.animation.value == 1.0
      ensures Update in g.animation.listeners && Finish in g.animation.listeners
    {
      var ps := CreateParticles(x, y, speeds);
      ghost var afree := animationPool.free;
      assert afree != [] ==> afree[|afree| - 1] in afree;
      var a := animationPool.Pop();
      a.On(Update);
      a.Start();
      a.On(Finish);
      g := new Group(ps, a);
    }

    /** The group's animation finishes (`finish`, by its own clock or forced): the
        one-shot listener recycles the group. */
    method FinishGroup(world: World, g: Group)
      requires Configured() && animationPool.Uniform() && g.animation.from == 1.0 && g.animation.to == 0.0
      modifies particlePool`free, g.particles`attached, g.particles`listeners
      modifies animationPool`free, g.animation`running, g.animation`listeners, g.animation`value
      ensures !g.animation.running && g.animation.value == 0.0
      ensures particlePool.free == old(particlePool.free) + g.particles
      ensures forall k :: 0 <= k < |g.particles| ==> !g.particles[k].attached
      ensures forall k :: 0 <= k < |g.particles| ==> g.particles[k].listeners == old(g.particles[k].listeners)
      ensures animationPool.free == old(animationPool.free) + [g.animation] && animationPool.Uniform()
    {
      g.animation.Finish();
      RecycleGroup(world, g);
    }

    /** The groups `gs` finish one after another, in order, over a list the finishes do
        not change: each is recycled, so the pools get all their particles and
        animations back, in order, and no particle keeps a parent. */
    method FinishAll(world: World, gs: seq<Group>)
      requires Configured() && animationPool.Uniform()
      requires forall k :: 0 <= k < |gs| ==> gs[k].animation.from == 1.0 && gs[k].animation.to == 0.0
      modifies particlePool`free, AllParticles(gs)`attached, AllParticles(gs)`listeners
      modifies animationPool`free, Animations(gs)`running, Animations(gs)`listeners, Animations(gs)`value
      ensures particlePool.free == old(particlePool.free) + AllParticles(gs)
      ensures animationPool.free == old(animationPool.free) + Animations(gs) && animationPool.Uniform()
      ensures forall p :: p in AllParticles(gs) ==> !p.attached
      ensures forall j, k :: 0 <= j < |gs| && 0 <= k < |gs[j].particles| ==>
        gs[j].particles[k].listeners == old(gs[j].particles[k].listeners)
    {
      ghost var free0, afree0 := particlePool.free, animationPool.free;
      var i := 0;
      while i < |gs|
        invariant 0 <= i <= |gs|
        invariant particlePool.free == free0 + AllParticles(gs[..i])
        invariant animationPool.free == afree0 + Animations(gs[..i]) && animationPool.Uniform()
        invariant forall p :: p in AllParticles(gs[..i]) ==> !p.attached
        invariant forall j, k :: 0 <= j < |gs| && 0 <= k < |gs[j].particles| ==>
          gs[j].particles[k].listeners == old(gs[j].particles[k].listeners)
      {
        FinishStep(world, gs, i, free0, afree0);
        i := i + 1;
      }
      assert gs[..i] == gs;
    }

    /** One pass of `FinishAll`'s loop: group `i` finishes and is recycled. */
    method FinishStep(world: World, gs: seq<Group>, i: nat, ghost free0: seq<Node>, ghost afree0: seq<Animation>)
      requires Configured() && i < |gs|
      requires forall k :: 0 <= k < |gs| ==> gs[k].animation.from == 1.0 && gs[k].animation.to == 0.0
      requires particlePool.free == free0 + AllParticles(gs[..i])
      requires animationPool.free == afree0 + Animations(gs[..i]) && animationPool.Uniform()
      requires forall p :: p in AllParticles(gs[..i]) ==> !p.attached
      modifies particlePool`free, AllParticles(gs)`attached, AllParticles(gs)`listeners
      modifies animationPool`free, Animations(gs)`running, Animations(gs)`listeners, Animations(gs)`value
      ensures particlePool.free == free0 + AllParticles(gs[..i + 1])
      ensures animationPool.free == afree0 + Animations(gs[..i + 1]) && animationPool.Uniform()
      ensures forall p :: p in AllParticles(gs[..i + 1]) ==> !p.attached
      ensures forall j, k :: 0 <= j < |gs| && 0 <= k < |gs[j].particles| ==>
        gs[j].particles[k].listeners == old(gs[j].particles[k].listeners)
    {
      var g := gs[i];
      AllParticlesHas(gs, i);
      GroupStep(gs, i, free0, afree0);
      FinishGroup(world, g);
      forall p | p in AllParticles(gs[..i + 1]) ensures !p.attached {
        if p in g.particles {
          var k :| 0 <= k < |g.particles| && g.particles[k] == p;
        } else {
          AllParticlesFrom(gs[..i], p);
          var j :| 0 <= j < i && p in gs[j].particles;
          assert old(allocated(gs[j]));
        }
      }
      forall j, k | 0 <= j < |gs| && 0 <= k < |gs[j].particles|
        ensures gs[j].particles[k].listeners == old(gs[j].particles[k].listeners)
      {
        var p := gs[j].particles[k];
        if p in g.particles {
          var m :| 0 <= m < |g.particles| && g.particles[m] == p;
        }
      }
    }
  }

  /** Every particle of the groups `gs`, group by group. */
  function AllParticles(gs: seq<Group>): seq<Node>
    decreases |gs|
  {
    if gs == [] then [] else AllParticles(gs[..|gs| - 1]) + gs[|gs| - 1].particles
  }

  /** The groups' animations, in order. */
  function Animations(gs: seq<Group>): (r: seq<Animation>)
    ensures |r| == |gs|
  {
    seq(|gs|, k requires 0 <= k < |gs| => gs[k].animation)
  }

  /** The particles of group `i` are among the particles of all the groups. */
  lemma {:induction false} AllParticlesHas(gs: seq<Group>, i: int)
    requires 0 <= i < |gs|
    ensures forall k :: 0 <= k < |gs[i].particles| ==> gs[i].particles[k] in AllParticles(gs)
    decreases |gs|
  {
    var gs' := gs[..|gs| - 1];
    if i < |gs| - 1 {
      AllParticlesHas(gs', i);
      assert gs'[i] == gs[i];
    } else {
      forall k | 0 <= k < |gs[i].particles|
        ensures gs[i].particles[k] in AllParticles(gs)
      {
        assert AllParticles(gs)[|AllParticles(gs')| + k] == gs[i].particles[k];
      }
    }
  }

  /** A particle of the groups is a particle of one of them. */
  lemma {:induction false} AllParticlesFrom(gs: seq<Group>, p: Node)
    requires p in AllParticles(gs)
    ensures exists k :: 0 <= k < |gs| && p in gs[k].particles
    decreases |gs|
  {
    var gs' := gs[..|gs| - 1];
    if p !in gs[|gs| - 1].particles {
      AllParticlesFrom(gs', p);
      var k :| 0 <= k < |gs'| && p in gs'[k].particles;
      assert gs[k] == gs'[k];
    }
  }

  /** What one more finished group adds to the pools. */
  lemma GroupStep(gs: seq<Group>, i: int, free0: seq<Node>, afree0: seq<Animation>)
    requires 0 <= i < |gs|
    ensures AllParticles(gs[..i + 1]) == AllParticles(gs[..i]) + gs[i].particles
    ensures free0 + AllParticles(gs[..i + 1]) == (free0 + AllParticles(gs[..i])) + gs[i].particles
    ensures afree0 + Animations(gs[..i + 1]) == (afree0 + Animations(gs[..i])) + [gs[i].animation]
    ensures Animations(gs)[i] == gs[i].animation
  {
    AllParticlesSnoc(gs, i);
    AnimationsSnoc(gs, i);
  }

  lemma AllParticlesSnoc(gs: seq<Group>, i: int)
    requires 0 <= i < |gs|
    ensures AllParticles(gs[..i + 1]) == AllParticles(gs[..i]) + gs[i].particles
  {
    assert gs[..i + 1][..i] == gs[..i];
  }

  lemma AnimationsSnoc(gs: seq<Group>, i: int)
    requires 0 <= i < |gs|
    ensures Animations(gs[..i + 1]) == Animations(gs[..i]) + [gs[i].animation]
    ensures Animations(gs)[i] == gs[i].animation
  {
    var a, b := Animations(gs[..i + 1]), Animations(gs[..i]) + [gs[i].animation];
    forall k | 0 <= k < i + 1 ensures a[k] == b[k] {
      assert a[k] == gs[k].animation;
    }
  }

  /** The particles of existing groups exist, so a new node is not among them. */
  lemma {:induction false} AllParticlesAllocated(gs: seq<Group>)
    ensures forall q :: q in AllParticles(gs) ==> allocated(q)
    decreases |gs|
  {
    if gs != [] {
      AllParticlesAllocated(gs[..|gs| - 1]);
    }
  }

  /** What one more finished group `g`, after the groups `vs`, adds to the pools. */
  lemma GroupAppended(vs: seq<Group>, g: Group, free0: seq<Node>, afree0: seq<Animation>)
    ensures free0 + AllParticles(vs + [g]) == (free0 + AllParticles(vs)) + g.particles
    ensures afree0 + Animations(vs + [g]) == (afree0 + Animations(vs)) + [g.animation]
  {
    assert (vs + [g])[..|vs|] == vs;
    assert Animations(vs + [g]) == Animations(vs) + [g.animation];
  }

  /** The particles of the groups `a + b` are those of `a`, then those of `b`. */
  lemma {:induction false} AllParticlesConcat(a: seq<Group>, b: seq<Group>)
    ensures AllParticles(a + b) == AllParticles(a) + AllParticles(b)
    decreases |b|
  {
    if b == [] {
      assert a + b == a;
    } else {
      var b' := b[..|b| - 1];
      AllParticlesConcat(a, b');
      assert (a + b)[..|a + b| - 1] == a + b';
    }
  }

  /** Every particle of every group of `gs` was made by `pool`. */
  ghost predicate GroupsMadeBy(gs: seq<Group>, pool: NodePool) {
    forall g :: g in gs ==> MadeBy(g.particles, pool)
  }

  /** Then the groups' particles, all together, were made by `pool`. */
  lemma {:induction false} AllParticlesMade(gs: seq<Group>, pool: NodePool)
    requires GroupsMadeBy(gs, pool)
    ensures MadeBy(AllParticles(gs), pool)
    decreases |gs|
  {
    if gs != [] {
      var front, g := gs[..|gs| - 1], gs[|gs| - 1];
      assert forall h :: h in front ==> h in gs;
      AllParticlesMade(front, pool);
      assert g in gs;
      var all := AllParticles(front) + g.particles;
      forall k | 0 <= k < |all| ensures all[k].maker == pool {
        if k >= |AllParticles(front)| {
          assert all[k] == g.particles[k - |AllParticles(front)|];
        }
      }
    }
  }

  /** Each particle is in at most one place, once: in one of the groups `gs`, or in
      the free list. */
  ghost predicate ParticlesApart(gs: seq<Group>, free: seq<Node>) {
    Distinct(AllParticles(gs) + free)
  }

  /** When every listed group is recycled and the list emptied, every particle is
      still in at most one place: the free list. */
  lemma AllLeave(gs: seq<Group>, free: seq<Node>)
    requires ParticlesApart(gs, free)
    ensures ParticlesApart([], free + AllParticles(gs))
  {
    var ap := AllParticles(gs);
    assert [] + ap + [] + free == ap + free;
    DistinctMoved([], ap, [], free);
  }

  /** Deleting a group keeps every remaining group's fade from 1 to 0. */
  lemma FadesWithout(gs: seq<Group>, g: Group)
    requires forall k :: 0 <= k < |gs| ==> gs[k].animation.from == 1.0 && gs[k].animation.to == 0.0
    ensures forall k :: 0 <= k < |Without(gs, g)| ==>
      Without(gs, g)[k].animation.from == 1.0 && Without(gs, g)[k].animation.to == 0.0
  {
    var r := Without(gs, g);
    forall k | 0 <= k < |r| ensures r[k].animation.from == 1.0 && r[k].animation.to == 0.0 {
      assert r[k] in gs;
      var j :| 0 <= j < |gs| && gs[j] == r[k];
    }
  }

  /** A listed group that is recycled and removed from the list leaves every particle
      in at most one place. */
  lemma GroupLeaves(gs: seq<Group>, g: Group, free: seq<Node>)
    requires ParticlesApart(gs, free) && g in gs
    ensures ParticlesApart(Without(gs, g), free + g.particles)
    ensures Distinct(free + g.particles)
  {
    var i := IndexOf(gs, g);
    WithoutAt(gs, g, i);
    Around(gs, i);
    LeavesAt(gs[..i], g, gs[i + 1..], free);
  }

  lemma LeavesAt(before: seq<Group>, g: Group, after: seq<Group>, free: seq<Node>)
    requires ParticlesApart((before + [g]) + after, free)
    ensures ParticlesApart(before + after, free + g.particles)
    ensures Distinct(free + g.particles)
  {
    AllParticlesConcat(before + [g], after);
    AllParticlesConcat(before, [g]);
    AllParticlesConcat(before, after);
    assert [g][..0] == [];
    DistinctMoved(AllParticles(before), g.particles, AllParticles(after), free);
  }

  /** A new group whose particles were popped from the free list `free0`, or are new,
      joins the list with every particle still in at most one place. */
  lemma GroupJoins(gs: seq<Group>, g: Group, free0: seq<Node>, free: seq<Node>)
    requires ParticlesApart(gs, free0) && Popped(g.particles, 0, |g.particles|, free0, free)
    requires forall k :: 0 <= k < |g.particles| ==> g.particles[k] in free0 || g.particles[k] !in AllParticles(gs)
    ensures ParticlesApart(gs + [g], free) && Distinct(free)
  {
    AllParticlesConcat(gs, [g]);
    assert [g][..0] == [];
    forall x | x in g.particles ensures x in free0 || x !in AllParticles(gs) {
      var k :| 0 <= k < |g.particles| && g.particles[k] == x;
    }
    DistinctJoin(AllParticles(gs), g.particles, free0, free);
  }
}
