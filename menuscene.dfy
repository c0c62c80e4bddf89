/** The menu scene (src/menuScene.js): behind the menu, two timer-driven spawners throw
    bombs in from the sides and burst particle groups, each capped; the bombs that fall
    out of view are recycled, and `exit` hands everything back to the shared pools. */
module MenuScene {
  import opened Lists
  import opened Engine
  import opened Culling
  import opened Bombs
  import opened Particles

  const SPAWN_WAITING_TIME: int := 500

  const BOMB_BOUNDARY_EXTEND: real := 10.0
  const BOMB_SPAWN_MIN_GAP: int := 500
  const BOMB_SPAWN_MAX_GAP: int := 1500
  const BOMB_SPAWN_MIN_Y: real := ENGINE_HEIGHT * 0.6
  const BOMB_SPAWN_MAX_Y: real := ENGINE_HEIGHT * 0.8
  const BOMB_MAX_COUNT: nat := 5

  const PARTICLE_GROUP_SPAWN_MIN_GAP: int := 500
  const PARTICLE_GROUP_SPAWN_MAX_GAP: int := 2000
  const PARTICLE_GROUP_SPAWN_MIN_X: real := ENGINE_WIDTH * 0.2
  const PARTICLE_GROUP_SPAWN_MAX_X: real := ENGINE_WIDTH * 0.8
  const PARTICLE_GROUP_SPAWN_MIN_Y: real := ENGINE_HEIGHT * 0.2
  const PARTICLE_GROUP_SPAWN_MAX_Y: real := ENGINE_HEIGHT * 0.8
  const PARTICLE_GROUP_MAX_COUNT: nat := 3

  /** `afterUpdate`'s `bombBottomY`: the scene fills the engine's canvas, so its height
      is the engine's. */
  const BOMB_FLOOR: real := ENGINE_HEIGHT + BOMB_BOUNDARY_EXTEND

  /** A `setTimeout` handle: none (`null`), or a call pending after `delay` milliseconds. */
  datatype Timer = Idle | Pending(delay: int)

  /** The randomizer draws of one bomb spawn: the integer height `y`, the direction
      `(dx, dy)` (the cosine and sine of an angle between 10 and 70 degrees, kept as
      its two positive components), the side, and the delay to the next spawn. */
  datatype BombDraw = BombDraw(y: int, dx: real, dy: real, left: bool, delay: int)

  predicate ValidBombDraw(d: BombDraw) {
    && BOMB_SPAWN_MIN_Y <= d.y as real <= BOMB_SPAWN_MAX_Y
    && 0.0 < d.dx && 0.0 < d.dy
    && BOMB_SPAWN_MIN_GAP <= d.delay <= BOMB_SPAWN_MAX_GAP
  }

  /** Where a spawned bomb starts and the direction it is thrown in. */
  datatype Launch = Launch(x: real, y: real, velocity: Velocity)

  /** `spawnBomb`'s side choice: just past the left edge, thrown along `(dx, -dy)`, or
      just past the right edge, thrown along `(-dx, -dy)`. Either way the bomb starts
      out of view and is thrown upwards and into the screen, mirrored between the
      sides. */
  function LaunchOf(d: BombDraw): (l: Launch)
    requires ValidBombDraw(d)
    ensures l.x < 0.0 || l.x > ENGINE_WIDTH
    ensures l.velocity.Aimed? && l.velocity.speed == BOMB_SPEED && l.velocity.dy == -d.dy < 0.0
    ensures (l.velocity.dx > 0.0) == (l.x < 0.0) == d.left
    ensures l.velocity.dx == d.dx || l.velocity.dx == -d.dx
    ensures l.y == d.y as real && BOMB_SPAWN_MIN_Y <= l.y <= BOMB_SPAWN_MAX_Y
  {
    if d.left then Launch(-BOMB_BOUNDARY_EXTEND, d.y as real, Aimed(d.dx, -d.dy, BOMB_SPEED))
    else Launch(ENGINE_WIDTH + BOMB_BOUNDARY_EXTEND, d.y as real, Aimed(-d.dx, -d.dy, BOMB_SPEED))
  }

  /** The randomizer draws of one particle-group spawn: the integer spawn point, the
      particles' speeds, and the delay to the next spawn. */
  datatype GroupDraw = GroupDraw(x: int, y: int, speeds: seq<real>, delay: int)

  predicate ValidGroupDraw(d: GroupDraw) {
    && PARTICLE_GROUP_SPAWN_MIN_X <= d.x as real <= PARTICLE_GROUP_SPAWN_MAX_X
    && PARTICLE_GROUP_SPAWN_MIN_Y <= d.y as real <= PARTICLE_GROUP_SPAWN_MAX_Y
    && ValidSpeeds(d.speeds)
    && PARTICLE_GROUP_SPAWN_MIN_GAP <= d.delay <= PARTICLE_GROUP_SPAWN_MAX_GAP
  }

  /** A capped spawner's list length after it fires: one more, unless the cap is
      reached. */
  function AfterSpawn(count: nat, cap: nat): nat {
    if count >= cap then count else count + 1
  }

  /** What happens to a spawner's list: the spawner fires, or `n` entities leave it
      (the cull, a finished group, `exit`). */
  datatype Change = Fire | Leave(n: nat)

  /** The list length after the changes `cs`, in order. */
  function CountAfter(count: nat, cap: nat, cs: seq<Change>): nat
    decreases |cs|
  {
    if cs == [] then count
    else
      var c := CountAfter(count, cap, cs[..|cs| - 1]);
      match cs[|cs| - 1]
      case Fire => AfterSpawn(c, cap)
      case Leave(n) => if n <= c then c - n else 0
  }

  /** A spawner that starts within its cap stays within it, however its firings and
      removals interleave; and it never grows by more than one per firing. */
  lemma {:induction false} SpawnsStayCapped(count: nat, cap: nat, cs: seq<Change>)
    requires count <= cap
    ensures CountAfter(count, cap, cs) <= cap
    ensures CountAfter(count, cap, cs) <= count + |cs|
    decreases |cs|
  {
    if cs != [] {
      SpawnsStayCapped(count, cap, cs[..|cs| - 1]);
    }
  }

  /** The world's children and the recycled bombs `bs` stay detached, and the bombs
      without listeners, while the groups finish. */
  ghost predicate StayDetached(children: seq<Node>, bs: seq<Node>)
    reads children, bs
  {
    && (forall k :: 0 <= k < |children| ==> !children[k].attached)
    && (forall k :: 0 <= k < |bs| ==> !bs[k].attached && bs[k].listeners == {})
  }

  /** The scene's state. The bomb and particle pools belong to src/bomb.js and
      src/particles.js and are shared with the main scene. */
  class Menu {
    const world: World
    const bombPool: NodePool
    const emitter: Emitter
    var bombs: seq<Node>
    var particleGroups: seq<Group>
    /** `bombSpawnTimer`. */
    var bombTimer: Timer
    /** `particleGroupSpawnTimer`. */
    var groupTimer: Timer

    /** The configuration of the shared pools, fixed at load time. */
    predicate Configured() {
      IsBombPool(bombPool) && emitter.Configured()
    }

    /** A bomb is live (listed) or recycled (in the pool), never both, and never twice. */
    ghost predicate BombsTracked()
      reads this, bombPool
    {
      Distinct(bombs) && Distinct(bombPool.free) && Disjoint(bombs, bombPool.free)
    }

    /** No group is listed twice, and each particle is in at most one place, once: in
        one listed group or free. */
    ghost predicate GroupsTracked()
      reads this, emitter.particlePool
    {
      Distinct(particleGroups) && ParticlesApart(particleGroups, emitter.particlePool.free)
    }

    /** Every listed group fades from 1 to 0, as `createParticleGroup` makes them. */
    predicate GroupsFade()
      reads this
    {
      forall k :: 0 <= k < |particleGroups| ==>
        particleGroups[k].animation.from == 1.0 && particleGroups[k].animation.to == 0.0
    }

    constructor (bombPool: NodePool, emitter: Emitter)
      requires IsBombPool(bombPool) && emitter.Configured()
      ensures Configured() && this.bombPool == bombPool && this.emitter == emitter
      ensures fresh(world) && !world.active
      ensures bombs == [] && particleGroups == [] && bombTimer == Idle && groupTimer == Idle
    {
      world := new World();
      this.bombPool, this.emitter := bombPool, emitter;
      bombs, particleGroups := [], [];
      bombTimer, groupTimer := Idle, Idle;
    }

    /** `spawnBomb`, when its timer fires: with `BOMB_MAX_COUNT` bombs listed it only
        waits `SPAWN_WAITING_TIME` and tries again; otherwise a new bomb is launched as
        `LaunchOf` says, attached and listed, and the next spawn is timed by the draw. */
    method SpawnBomb(d: BombDraw) returns (b: Node?)
      requires Configured() && ValidBombDraw(d)
      modifies this`bombs, this`bombTimer
      ensures |bombs| == AfterSpawn(|old(bombs)|, BOMB_MAX_COUNT)
      ensures (b == null) == (|old(bombs)| >= BOMB_MAX_COUNT)
      ensures b == null ==> bombs == old(bombs) && bombTimer == Pending(SPAWN_WAITING_TIME)
      ensures b != null ==> fresh(b) && bombs == old(bombs) + [b] && bombTimer == Pending(d.delay)
      ensures b != null ==> Launch(b.x, b.y, b.velocity) == LaunchOf(d) && b.attached && b.listeners == {}
      ensures old(BombsTracked()) ==> BombsTracked()
    {
      b := null;
      if |bombs| >= BOMB_MAX_COUNT {
        bombTimer := Pending(SPAWN_WAITING_TIME);
        return;
      }
      var l := LaunchOf(d);
      var bomb := CreateBomb(bombPool, l.x, l.y, l.velocity.dx, l.velocity.dy);
      world.AppendChild(bomb);
      if old(BombsTracked()) {
        AppendNew(bombs, bomb);
      }
      bombs := bombs + [bomb];
      bombTimer := Pending(d.delay);
      b := bomb;
    }

    /** `spawnParticleGroup`, when its timer fires: with `PARTICLE_GROUP_MAX_COUNT`
        groups listed it only waits `SPAWN_WAITING_TIME` and tries again; otherwise a
        group bursts at the drawn point, its particles are attached, it is listed, its
        animation gets a `finish` listener (`GroupFinished`), and the next spawn is
        timed by the draw. */
    method SpawnParticleGroup(d: GroupDraw) returns (g: Group?)
      requires Configured() && ValidGroupDraw(d)
      requires Distinct(emitter.particlePool.free) && emitter.animationPool.Uniform()
      modifies this`particleGroups, this`groupTimer
      modifies emitter.particlePool`free, emitter.particlePool.free`x, emitter.particlePool.free`y,
        emitter.particlePool.free`velocity, emitter.particlePool.free`attached
      modifies emitter.animationPool`free, emitter.animationPool.free`listeners,
        emitter.animationPool.free`running, emitter.animationPool.free`value
      ensures |particleGroups| == AfterSpawn(|old(particleGroups)|, PARTICLE_GROUP_MAX_COUNT)
      ensures (g == null) == (|old(particleGroups)| >= PARTICLE_GROUP_MAX_COUNT)
      ensures g == null ==> particleGroups == old(particleGroups) && groupTimer == Pending(SPAWN_WAITING_TIME)
      ensures g == null ==> emitter.particlePool.free == old(emitter.particlePool.free)
      ensures g != null ==> fresh(g) && particleGroups == old(particleGroups) + [g] && groupTimer == Pending(d.delay)
      ensures g != null ==> (|g.particles| == PARTICLE_GROUP_SIZE &&
        Launched(g.particles, d.x as real, d.y as real, d.speeds))
      ensures g != null ==> forall k :: 0 <= k < |g.particles| ==> g.particles[k].attached
      ensures g != null ==> g.animation.running && Finish in g.animation.listeners
      ensures emitter.animationPool.Uniform()
      ensures old(GroupsFade()) ==> GroupsFade()
      ensures old(GroupsTracked()) ==> GroupsTracked() && Distinct(emitter.particlePool.free)
    {
      g := null;
      if |particleGroups| >= PARTICLE_GROUP_MAX_COUNT {
        groupTimer := Pending(SPAWN_WAITING_TIME);
        return;
      }
      g := AddGroup(d.x as real, d.y as real, d.speeds);
      groupTimer := Pending(d.delay);
    }

    /** The spawn itself: the new group is listed, with every particle still in at
        most one place. */
    method AddGroup(x: real, y: real, speeds: seq<real>) returns (g: Group)
      requires Configured() && ValidSpeeds(speeds)
      requires Distinct(emitter.particlePool.free) && emitter.animationPool.Uniform()
      modifies this`particleGroups
      modifies emitter.particlePool`free, emitter.particlePool.free`x, emitter.particlePool.free`y,
        emitter.particlePool.free`velocity, emitter.particlePool.free`attached
      modifies emitter.animationPool`free, emitter.animationPool.free`listeners,
        emitter.animationPool.free`running, emitter.animationPool.free`value
      ensures fresh(g) && particleGroups == old(particleGroups) + [g]
      ensures |g.particles| == PARTICLE_GROUP_SIZE && Launched(g.particles, x, y, speeds)
      ensures forall k :: 0 <= k < |g.particles| ==> g.particles[k].attached
      ensures g.animation.running && Finish in g.animation.listeners
      ensures emitter.animationPool.Uniform()
      ensures old(GroupsFade()) ==> GroupsFade()
      ensures old(GroupsTracked()) ==> GroupsTracked() && Distinct(emitter.particlePool.free)
    {
      ghost var gs0, free0 := particleGroups, emitter.particlePool.free;
      AllParticlesAllocated(gs0);
      g := Emit(x, y, speeds);
      particleGroups := particleGroups + [g];
      if Distinct(gs0) && ParticlesApart(gs0, free0) {
        assert forall k :: 0 <= k < |g.particles| ==> g.particles[k] in free0 || g.particles[k] !in AllParticles(gs0);
        GroupJoins(gs0, g, free0, emitter.particlePool.free);
        AppendNew(gs0, g);
      }
    }

    /** `createParticleGroup(x, y)`, the `finish` listener and the loop attaching the
        particles. The particles are the last free ones, in pop order, then new ones. */
    method Emit(x: real, y: real, speeds: seq<real>) returns (g: Group)
      requires Configured() && ValidSpeeds(speeds)
      requires Distinct(emitter.particlePool.free) && emitter.animationPool.Uniform()
      modifies emitter.particlePool`free, emitter.particlePool.free`x, emitter.particlePool.free`y,
        emitter.particlePool.free`velocity, emitter.particlePool.free`attached
      modifies emitter.animationPool`free, emitter.animationPool.free`listeners,
        emitter.animationPool.free`running, emitter.animationPool.free`value
      ensures fresh(g) && |g.particles| == PARTICLE_GROUP_SIZE && Launched(g.particles, x, y, speeds)
      ensures Popped(g.particles, 0, PARTICLE_GROUP_SIZE, old(emitter.particlePool.free), emitter.particlePool.free)
      ensures forall k :: 0 <= k < |g.particles| ==>
        g.particles[k] in old(emitter.particlePool.free) || fresh(g.particles[k])
      ensures forall k :: 0 <= k < |g.particles| ==> g.particles[k].attached
      ensures g.animation.running && Finish in g.animation.listeners
      ensures emitter.animationPool.Uniform() && g.animation.from == 1.0 && g.animation.to == 0.0
    {
      g := emitter.CreateGroup(x, y, speeds);
      g.animation.On(Finish);
      world.AppendAll(g.particles);
    }

    /** A group's animation finishes: the particle module's listener recycles the group,
        then the scene's listener looks the group up and splices it out of the list
        (a group no longer listed leaves the list as it is). */
    method GroupFinished(g: Group)
      requires Configured() && emitter.animationPool.Uniform() && g.animation.from == 1.0 && g.animation.to == 0.0
      modifies this`particleGroups, emitter.particlePool`free, g.particles`attached, g.particles`listeners
      modifies emitter.animationPool`free, g.animation`running, g.animation`listeners, g.animation`value
      ensures particleGroups == Without(old(particleGroups), g)
      ensures emitter.particlePool.free == old(emitter.particlePool.free) + g.particles
      ensures forall k :: 0 <= k < |g.particles| ==> !g.particles[k].attached
      ensures forall k :: 0 <= k < |g.particles| ==> g.particles[k].listeners == old(g.particles[k].listeners)
      ensures emitter.animationPool.free == old(emitter.animationPool.free) + [g.animation]
      ensures emitter.animationPool.Uniform() && !g.animation.running
      ensures old(GroupsTracked()) && g in old(particleGroups) ==>
        GroupsTracked() && Distinct(emitter.particlePool.free)
    {
      ghost var gs0, free0 := particleGroups, emitter.particlePool.free;
      emitter.FinishGroup(world, g);
      Unlist(g);
      if Distinct(gs0) && ParticlesApart(gs0, free0) && g in gs0 {
        GroupLeaves(gs0, g, free0);
      }
    }

    /** The scene's `finish` listener: `removeElements` at the index `indexOf` finds,
        which leaves the list as it is when the group is not listed. */
    method Unlist(g: Group)
      modifies this`particleGroups
      ensures particleGroups == Without(old(particleGroups), g)
    {
      var index := IndexOf(particleGroups, g);
      if index >= 0 {
        particleGroups := particleGroups[..index] + particleGroups[index + 1..];
      }
    }

    /** `afterUpdate`: the bombs above `BOMB_FLOOR` stay, in order; each of the others
        is detached and recycled, in list order. */
    method AfterUpdate()
      requires Configured() && BombsTracked()
      modifies this`bombs, bombPool`free, bombs`attached, bombs`listeners
      ensures bombs == old(Kept(AboveFloor(BOMB_FLOOR), bombs)) && |bombs| <= |old(bombs)|
      ensures bombPool.free == old(bombPool.free + Culled(AboveFloor(BOMB_FLOOR), bombs))
      ensures forall k :: 0 <= k < |old(bombs)| && !old(Keeps(AboveFloor(BOMB_FLOOR), bombs[k])) ==>
        !old(bombs)[k].attached && old(bombs)[k].listeners == {}
      ensures BombsTracked()
    {
      ghost var bs, free := bombs, bombPool.free;
      var kept := Cull(world, bombs, AboveFloor(BOMB_FLOOR), bombPool, true);
      CullTracked(AboveFloor(BOMB_FLOOR), bs, free);
      bombs := kept;
    }

    /** `enter`: both spawners are timed for their minimum gap, and the world starts. */
    method Enter()
      modifies this`bombTimer, this`groupTimer, world`active
      ensures bombTimer == Pending(BOMB_SPAWN_MIN_GAP) && groupTimer == Pending(PARTICLE_GROUP_SPAWN_MIN_GAP)
      ensures world.active
    {
      bombTimer := Pending(BOMB_SPAWN_MIN_GAP);
      groupTimer := Pending(PARTICLE_GROUP_SPAWN_MIN_GAP);
      world.Activate();
    }

    /** `exit` as written: every child of the world is detached and the world stops;
        every bomb is recycled, the list is emptied and the bomb timer cleared; then
        `forEach` runs over the live group list while each finish splices its group
        out, so only the groups at even positions finish and are recycled, and those
        at odd positions stay listed. */
    method ExitAsWritten(children: seq<Node>)
      requires Configured() && GroupsFade() && emitter.animationPool.Uniform() && Distinct(particleGroups)
      modifies children`attached, world`active
      modifies this`bombs, this`bombTimer, bombPool`free, bombs`attached, bombs`listeners
      modifies this`particleGroups, this`groupTimer, emitter.particlePool`free, AllParticles(particleGroups)`attached,
        AllParticles(particleGroups)`listeners, emitter.animationPool`free, Animations(particleGroups)`running,
        Animations(particleGroups)`listeners, Animations(particleGroups)`value
      ensures !world.active && forall k :: 0 <= k < |children| ==> !children[k].attached
      ensures bombs == [] && bombPool.free == old(bombPool.free) + old(bombs) && bombTimer == Idle
      ensures forall k :: 0 <= k < |old(bombs)| ==> !old(bombs)[k].attached && old(bombs)[k].listeners == {}
      ensures particleGroups == Odds(old(particleGroups)) && groupTimer == Idle
      ensures emitter.particlePool.free == old(emitter.particlePool.free) + AllParticles(Evens(old(particleGroups)))
      ensures emitter.animationPool.free == old(emitter.animationPool.free) + Animations(Evens(old(particleGroups)))
      ensures old(BombsTracked()) ==> BombsTracked()
      ensures old(GroupsTracked()) ==> GroupsTracked()
      ensures |old(particleGroups)| >= 2 ==> old(particleGroups)[1] in particleGroups
    {
      ghost var gs := particleGroups;
      TearDown(children);
      ClearBombs();
      ghost var bs := old(bombs);
      FinishListed(children, bs);
      groupTimer := Idle;
      if |gs| >= 2 {
        SecondSkipped(gs);
      }
    }

    /** `exit`, with every group finished over a copy of the list, which is then
        emptied: every group is recycled and nothing stays listed. */
    method Exit(children: seq<Node>)
      requires Configured() && GroupsFade() && emitter.animationPool.Uniform()
      modifies children`attached, world`active
      modifies this`bombs, this`bombTimer, bombPool`free, bombs`attached, bombs`listeners
      modifies this`particleGroups, this`groupTimer, emitter.particlePool`free, AllParticles(particleGroups)`attached,
        AllParticles(particleGroups)`listeners, emitter.animationPool`free, Animations(particleGroups)`running,
        Animations(particleGroups)`listeners, Animations(particleGroups)`value
      ensures !world.active && forall k :: 0 <= k < |children| ==> !children[k].attached
      ensures bombs == [] && bombPool.free == old(bombPool.free) + old(bombs) && bombTimer == Idle
      ensures forall k :: 0 <= k < |old(bombs)| ==> !old(bombs)[k].attached && old(bombs)[k].listeners == {}
      ensures particleGroups == [] && groupTimer == Idle
      ensures emitter.particlePool.free == old(emitter.particlePool.free) + AllParticles(old(particleGroups))
      ensures emitter.animationPool.free == old(emitter.animationPool.free) + Animations(old(particleGroups))
      ensures old(BombsTracked()) ==> BombsTracked()
      ensures old(GroupsTracked()) ==> GroupsTracked()
    {
      TearDown(children);
      ClearBombs();
      ghost var bs := old(bombs);
      FinishAllGroups(children, bs);
      groupTimer := Idle;
    }

    /** The first part of `exit`: the world's children are detached and the world
        stops. */
    method TearDown(children: seq<Node>)
      modifies children`attached, world`active
      ensures !world.active && forall k :: 0 <= k < |children| ==> !children[k].attached
    {
      world.RemoveAll(children);
      world.Deactivate();
    }

    /** `exit`'s bomb part: every listed bomb is pushed to the pool in list order, losing
        its listeners and its parent; the list is emptied and the timer cleared. */
    method ClearBombs()
      requires Configured()
      modifies this`bombs, this`bombTimer, bombPool`free, bombs`attached, bombs`listeners
      ensures bombs == [] && bombPool.free == old(bombPool.free) + old(bombs) && bombTimer == Idle
      ensures forall k :: 0 <= k < |old(bombs)| ==> !old(bombs)[k].attached && old(bombs)[k].listeners == {}
      ensures old(BombsTracked()) ==> BombsTracked()
    {
      var bs := bombs;
      ghost var free0 := bombPool.free;
      ghost var tracked := BombsTracked();
      var i := 0;
      while i < |bs|
        invariant 0 <= i <= |bs| && bombPool.free == free0 + bs[..i]
        invariant forall k :: 0 <= k < i ==> !bs[k].attached && bs[k].listeners == {}
      {
        assert bs[..i + 1] == bs[..i] + [bs[i]];
        RecycleBomb(bombPool, bs[i]);
        i := i + 1;
      }
      assert bs[..i] == bs;
      if tracked {
        DistinctConcat(free0, bs);
      }
      bombs := [];
      bombTimer := Idle;
    }

    /** Where `FinishListed`'s loop over the list `s` stands after `k` passes, from the
        free lists `free0` and `afree0`: what is left of the list, and the pools holding
        what the visited groups gave back. */
    ghost predicate PassesDone(s: seq<Group>, k: nat, free0: seq<Node>, afree0: seq<Animation>)
      reads this, emitter.particlePool, emitter.animationPool
    {
      var m := Min(2 * k, |s|);
      && particleGroups == Remaining(s, k)
      && emitter.particlePool.free == free0 + AllParticles(Evens(s[..m]))
      && emitter.animationPool.free == afree0 + Animations(Evens(s[..m]))
      && emitter.animationPool.Uniform()
    }

    /** `exit`'s group part as written: `forEach` over the live list, which captures
        its length, skips the indices past the end of what is left, and sees each
        finish splice its group out; the visited groups are those at even positions. */
    method FinishListed(ghost children: seq<Node>, ghost bs: seq<Node>)
      requires Configured() && GroupsFade() && emitter.animationPool.Uniform() && Distinct(particleGroups)
      requires StayDetached(children, bs)
      modifies this`particleGroups, emitter.particlePool`free, AllParticles(particleGroups)`attached,
        AllParticles(particleGroups)`listeners, emitter.animationPool`free, Animations(particleGroups)`running,
        Animations(particleGroups)`listeners, Animations(particleGroups)`value
      ensures particleGroups == Odds(old(particleGroups))
      ensures emitter.particlePool.free == old(emitter.particlePool.free) + AllParticles(Evens(old(particleGroups)))
      ensures emitter.animationPool.free == old(emitter.animationPool.free) + Animations(Evens(old(particleGroups)))
      ensures emitter.animationPool.Uniform()
      ensures StayDetached(children, bs)
      ensures old(GroupsTracked()) ==> GroupsTracked()
    {
      ghost var s, free0, afree0 := particleGroups, emitter.particlePool.free, emitter.animationPool.free;
      SkipStart(s);
      assert free0 + AllParticles([]) == free0 && afree0 + Animations([]) == afree0;
      FinishPasses(s, free0, afree0, children, bs);
      SkipDone(s, |s|);
    }

    /** The loop of `FinishListed`, over the list that started as `s`. */
    method FinishPasses(ghost s: seq<Group>, ghost free0: seq<Node>, ghost afree0: seq<Animation>,
                        ghost children: seq<Node>, ghost bs: seq<Node>)
      requires Configured() && Distinct(s) && PassesDone(s, 0, free0, afree0)
      requires forall j :: 0 <= j < |s| ==> s[j].animation.from == 1.0 && s[j].animation.to == 0.0
      requires StayDetached(children, bs)
      modifies this`particleGroups, emitter.particlePool`free, AllParticles(s)`attached,
        AllParticles(s)`listeners, emitter.animationPool`free, Animations(s)`running,
        Animations(s)`listeners, Animations(s)`value
      ensures PassesDone(s, |s|, free0, afree0)
      ensures StayDetached(children, bs)
      ensures old(GroupsTracked()) ==> GroupsTracked()
    {
      var len := |particleGroups|;
      ghost var tracked := GroupsTracked();
      var k := 0;
      while k < len
        invariant 0 <= k <= len == |s| && PassesDone(s, k, free0, afree0)
        invariant StayDetached(children, bs)
        invariant tracked ==> GroupsTracked()
      {
        SkipLength(s, k);
        if k < |particleGroups| {
          FinishPass(s, k, free0, afree0, children, bs);
        } else {
          SkipPast(s, k);
        }
        k := k + 1;
      }
    }

    /** Pass `k` of `FinishListed` while the index is within what is left of `s`: the
        group it visits is `s[2 * k]`, which finishes, is recycled and splices itself
        out; the world's children and the recycled bombs stay detached. */
    method FinishPass(ghost s: seq<Group>, k: nat, ghost free0: seq<Node>, ghost afree0: seq<Animation>,
                      ghost children: seq<Node>, ghost bs: seq<Node>)
      requires Configured() && Distinct(s) && 2 * k < |s| && PassesDone(s, k, free0, afree0)
      requires forall j :: 0 <= j < |s| ==> s[j].animation.from == 1.0 && s[j].animation.to == 0.0
      requires StayDetached(children, bs)
      modifies this`particleGroups, emitter.particlePool`free, AllParticles(s)`attached,
        AllParticles(s)`listeners, emitter.animationPool`free, Animations(s)`running,
        Animations(s)`listeners, Animations(s)`value
      ensures PassesDone(s, k + 1, free0, afree0)
      ensures StayDetached(children, bs)
      ensures old(GroupsTracked()) ==> GroupsTracked()
    {
      AllParticlesHas(s, 2 * k);
      AnimationsSnoc(s, 2 * k);
      Visit(s, k, free0, afree0);
      var g := s[2 * k];
      forall j | 0 <= j < |bs| ensures bs[j].listeners == {} {
        if bs[j] in g.particles {
          var m :| 0 <= m < |g.particles| && g.particles[m] == bs[j];
        }
      }
    }

    /** The visit of pass `k`, which changes only the group `s[2 * k]`, the list and the
        pools. */
    method Visit(ghost s: seq<Group>, k: nat, ghost free0: seq<Node>, ghost afree0: seq<Animation>)
      requires Configured() && Distinct(s) && 2 * k < |s| && PassesDone(s, k, free0, afree0)
      requires s[2 * k].animation.from == 1.0 && s[2 * k].animation.to == 0.0
      modifies this`particleGroups, emitter.particlePool`free, s[2 * k].particles`attached,
        s[2 * k].particles`listeners, emitter.animationPool`free, s[2 * k].animation`running,
        s[2 * k].animation`listeners, s[2 * k].animation`value
      ensures PassesDone(s, k + 1, free0, afree0)
      ensures forall m :: 0 <= m < |s[2 * k].particles| ==>
        !s[2 * k].particles[m].attached && s[2 * k].particles[m].listeners == old(s[2 * k].particles[m].listeners)
      ensures old(GroupsTracked()) ==> GroupsTracked()
    {
      SkipStep(s, k);
      var g := particleGroups[k];
      GroupFinished(g);
      GroupAppended(Evens(s[..2 * k]), g, free0, afree0);
    }

    /** `exit`'s group part with the loop run over a copy of the list: every group
        finishes and is recycled, in list order, and the list is emptied. */
    method FinishAllGroups(ghost children: seq<Node>, ghost bs: seq<Node>)
      requires Configured() && GroupsFade() && emitter.animationPool.Uniform()
      requires StayDetached(children, bs)
      modifies this`particleGroups, emitter.particlePool`free, AllParticles(particleGroups)`attached,
        AllParticles(particleGroups)`listeners, emitter.animationPool`free, Animations(particleGroups)`running,
        Animations(particleGroups)`listeners, Animations(particleGroups)`value
      ensures particleGroups == []
      ensures emitter.particlePool.free == old(emitter.particlePool.free) + AllParticles(old(particleGroups))
      ensures emitter.animationPool.free == old(emitter.animationPool.free) + Animations(old(particleGroups))
      ensures emitter.animationPool.Uniform()
      ensures StayDetached(children, bs)
      ensures old(GroupsTracked()) ==> GroupsTracked()
    {
      var gs := particleGroups;
      ghost var free0 := emitter.particlePool.free;
      emitter.FinishAll(world, gs);
      forall k | 0 <= k < |bs| ensures bs[k].listeners == {} {
        var p := bs[k];
        if p in AllParticles(gs) {
          AllParticlesFrom(gs, p);
          var j :| 0 <= j < |gs| && p in gs[j].particles;
          var m :| 0 <= m < |gs[j].particles| && gs[j].particles[m] == p;
        }
      }
      if ParticlesApart(gs, free0) {
        AllLeave(gs, free0);
      }
      particleGroups := [];
    }
  }
}
