/** The main (game) scene (src/mainScene.js): the platform conveyor under the character,
    the camera that follows it, bombs thrown on click, the particle bursts of the bombs
    that hit something, the distance score, and the game-over switch. */
module MainScene {
  import opened Lists
  import opened Engine
  import opened Culling
  import opened Platforms
  import opened Bombs
  import opened Particles
  import opened MainSceneWorld

  const SCORE_SCALE: real := 0.05
  const BOMB_IMPACT_COEFFICIENT: real := 9.0
  /** Where `enter` drops the character: three character sizes above the highest
      platform top. */
  const CHARACTER_INIT_Y: real := PLATFORM_MIN_Y - CHARACTER_SIZE * 3.0

  /** The score the character's offset `x` is worth: how far it got to the right of its
      start, one point per `1 / SCORE_SCALE` units, rounded down. */
  function Progress(x: real): (p: int)
    ensures p as real <= (x - CHARACTER_INIT_X) * SCORE_SCALE < p as real + 1.0
  {
    ((x - CHARACTER_INIT_X) * SCORE_SCALE).Floor
  }

  /** The character scores nothing where it starts, one point more every `1 / SCORE_SCALE`
      units to the right, and never less further right. */
  lemma ProgressSteps(x: real, y: real)
    ensures Progress(CHARACTER_INIT_X) == 0
    ensures Progress(x + 1.0 / SCORE_SCALE) == Progress(x) + 1
    ensures x <= y ==> Progress(x) <= Progress(y)
  {
    assert (x + 1.0 / SCORE_SCALE - CHARACTER_INIT_X) * SCORE_SCALE == (x - CHARACTER_INIT_X) * SCORE_SCALE + 1.0;
    if x <= y {
      assert (x - CHARACTER_INIT_X) * SCORE_SCALE <= (y - CHARACTER_INIT_X) * SCORE_SCALE;
    }
  }

  /** `afterUpdate`'s new score: the larger of the current score and the character's
      progress. */
  function NextScore(score: int, x: real): (s: int)
    ensures s >= score && s >= Progress(x)
    ensures s == score || s == Progress(x)
  {
    if score < Progress(x) then Progress(x) else score
  }

  /** The score after frames that ended with the character at offsets `xs`, in order. */
  function ScoreAfter(score: int, xs: seq<real>): int
    decreases |xs|
  {
    if xs == [] then score else NextScore(ScoreAfter(score, xs[..|xs| - 1]), xs[|xs| - 1])
  }

  /** The score is the best progress of any frame so far, or the starting score when
      that is higher (0 after `enter`). */
  lemma {:induction false} ScoreIsBestProgress(score: int, xs: seq<real>)
    ensures ScoreAfter(score, xs) >= score
    ensures forall i :: 0 <= i < |xs| ==> ScoreAfter(score, xs) >= Progress(xs[i])
    ensures ScoreAfter(score, xs) == score || exists i :: 0 <= i < |xs| && ScoreAfter(score, xs) == Progress(xs[i])
    decreases |xs|
  {
    if xs != [] {
      var xs' := xs[..|xs| - 1];
      ScoreIsBestProgress(score, xs');
      forall i | 0 <= i < |xs'| ensures xs[i] == xs'[i] { }
      var s := ScoreAfter(score, xs');
      if ScoreAfter(score, xs) != score && ScoreAfter(score, xs) != Progress(xs[|xs| - 1]) {
        assert ScoreAfter(score, xs) == s;
        var i :| 0 <= i < |xs'| && s == Progress(xs'[i]);
        assert ScoreAfter(score, xs) == Progress(xs[i]);
      }
    }
  }

  /** `strength` is the factor that turns the vector `(dx, dy)` from a bomb's centre to
      the character's into the push `BOMB_IMPACT_COEFFICIENT / d` along it, where `d` is
      the fourth root of `dx² + dy²`: `strength · |(dx, dy)| · d == 9`, which, with both
      roots squared away, reads `strength⁴ · (dx² + dy²)³ == 9⁴`. */
  ghost predicate ImpactFactor(dx: real, dy: real, strength: real) {
    var q := dx * dx + dy * dy;
    strength > 0.0 && strength * strength * strength * strength * (q * q * q) == 6561.0
  }

  /** The collision handler's `character.velocity.addVector(impact)`: the push along
      `(dx, dy)` scaled by `strength`. */
  function Pushed(v: Velocity, dx: real, dy: real, strength: real): (r: Velocity)
    requires v.Cartesian? && strength > 0.0
    ensures r.Cartesian?
  {
    Cartesian(v.vx + strength * dx, v.vy + strength * dy)
  }

  /** The push points from the bomb to the character, and it is not zero unless the
      centres coincide. */
  lemma PushedAway(v: Velocity, dx: real, dy: real, strength: real)
    requires v.Cartesian? && strength > 0.0
    ensures var r := Pushed(v, dx, dy, strength);
      && (r.vx - v.vx) * dx >= 0.0 && (r.vy - v.vy) * dy >= 0.0
      && (r.vx - v.vx) * dy == (r.vy - v.vy) * dx
      && (r == v <==> dx == 0.0 && dy == 0.0)
  {
    var r := Pushed(v, dx, dy, strength);
    assert (r.vx - v.vx) * dx == strength * (dx * dx);
    assert (r.vy - v.vy) * dy == strength * (dy * dy);
    assert (r.vx - v.vx) * dy == strength * (dx * dy) == (r.vy - v.vy) * dx;
    if r == v {
      assert strength * dx == 0.0 && strength * dy == 0.0;
    }
  }

  /** With the source's `strength` (`ImpactFactor`), the push has the size
      `BOMB_IMPACT_COEFFICIENT / d` for `d` the fourth root of the squared distance `q`:
      the fourth power of its size, times `q`, is `9⁴`. */
  lemma PushedSize(v: Velocity, dx: real, dy: real, strength: real)
    requires v.Cartesian? && ImpactFactor(dx, dy, strength)
    ensures var r := Pushed(v, dx, dy, strength);
      var size2 := (r.vx - v.vx) * (r.vx - v.vx) + (r.vy - v.vy) * (r.vy - v.vy);
      size2 * size2 * (dx * dx + dy * dy) == 6561.0
  {
    var r := Pushed(v, dx, dy, strength);
    var q := dx * dx + dy * dy;
    var size2 := (r.vx - v.vx) * (r.vx - v.vx) + (r.vy - v.vy) * (r.vy - v.vy);
    assert (r.vx - v.vx) * (r.vx - v.vx) == (strength * strength) * (dx * dx);
    assert (r.vy - v.vy) * (r.vy - v.vy) == (strength * strength) * (dy * dy);
    assert size2 == (strength * strength) * q;
    calc {
      size2 * size2 * q;
      ((strength * strength) * q) * ((strength * strength) * q) * q;
      (strength * strength * strength * strength) * (q * q * q);
      6561.0;
    }
  }

  /** The scene's state. The particle and bomb pools belong to src/particles.js and
      src/bomb.js and are shared with the menu scene. */
  class Scene {
    const world: World
    const character: Node
    const conveyor: Conveyor
    const bombPool: NodePool
    const emitter: Emitter
    var bombs: seq<Node>
    /** The `particleGroups` set, in insertion order. */
    var particleGroups: seq<Group>
    /** `currentScore`. */
    var score: int
    /** Whether the game-over section (with its Back button) is shown. */
    var gameOverVisible: bool

    /** The configuration of the pools and the conveyor, fixed at load time. */
    predicate Configured() {
      && IsBombPool(bombPool) && emitter.Configured()
      && conveyor.detachFirst && conveyor.pool.hook == NoClear && conveyor.pool != emitter.particlePool
    }

    /** A bomb is live (listed) or recycled (in the pool), never both, and never twice. */
    ghost predicate BombsTracked()
      reads this`bombs, bombPool`free
    {
      Distinct(bombs) && Distinct(bombPool.free) && Disjoint(bombs, bombPool.free)
    }

    /** No group is listed twice, and each particle is in at most one place, once: in
        one listed group or free. */
    ghost predicate GroupsTracked()
      reads this`particleGroups, emitter.particlePool`free
    {
      Distinct(particleGroups) && ParticlesApart(particleGroups, emitter.particlePool.free)
    }

    /** Every listed group fades from 1 to 0, as `createParticleGroup` makes them. */
    predicate GroupsFade()
      reads this`particleGroups
    {
      forall k :: 0 <= k < |particleGroups| ==>
        particleGroups[k].animation.from == 1.0 && particleGroups[k].animation.to == 0.0
    }

    /** Every particle, in a listed group or free, was made by the particle pool. */
    ghost predicate ParticlesOwned()
      reads this`particleGroups, emitter.particlePool`free
    {
      GroupsMadeBy(particleGroups, emitter.particlePool) && MadeBy(emitter.particlePool.free, emitter.particlePool)
    }

    /** Which pool made each node: the platforms, live or free, come from the conveyor's
        pool, the bombs, live or free, from the bomb pool, the particles, in a group or
        free, from the particle pool, and the character from none. The pools are three
        different pools (`Configured`), so no node plays two of these parts, and a
        change to the nodes of one part leaves the others as they were (`Separated`). */
    ghost predicate Owned()
      reads this`bombs, this`particleGroups, conveyor`platforms, conveyor.pool`free, bombPool`free,
        emitter.particlePool`free
    {
      && conveyor.Owned() && MadeBy(bombs, bombPool) && MadeBy(bombPool.free, bombPool)
      && ParticlesOwned() && character.maker == null
    }

    /** What the scene keeps at all times, except the bomb bookkeeping, which `exit` as
        written breaks: the configuration, the conveyor's platforms, who made each node,
        the particle groups, and a character velocity the collision handler can add to. */
    ghost predicate Consistent()
      reads this`bombs, this`particleGroups, character`velocity, conveyor`platforms, conveyor`boxes,
        conveyor.pool`free, bombPool`free, emitter.particlePool`free, emitter.animationPool`free
      reads conveyor.platforms`x, conveyor.platforms`y, conveyor.platforms`width, conveyor.platforms`height,
        conveyor.platforms`stroke, conveyor.platforms`attached
    {
      && Configured() && conveyor.Detaches() && Fleet(conveyor.platforms, conveyor.boxes, conveyor.pool.free)
      && Owned() && GroupsTracked() && GroupsFade() && emitter.animationPool.Uniform()
      && character.velocity.Cartesian?
    }

    /** The scene's invariant: `Consistent`, and every bomb live or recycled, never both. */
    ghost predicate Valid()
      reads this`bombs, this`particleGroups, character`velocity, conveyor`platforms, conveyor`boxes,
        conveyor.pool`free, bombPool`free, emitter.particlePool`free, emitter.animationPool`free
      reads conveyor.platforms`x, conveyor.platforms`y, conveyor.platforms`width, conveyor.platforms`height,
        conveyor.platforms`stroke, conveyor.platforms`attached
    {
      Consistent() && BombsTracked()
    }

    /** What `Owned` separates: no bomb, particle or character is a platform, live or
        free, and neither a bomb nor the character is a free particle. */
    lemma Separated()
      requires Configured() && Owned()
      ensures Disjoint(bombs, conveyor.platforms) && Disjoint(bombs, conveyor.pool.free)
      ensures Disjoint(bombs, emitter.particlePool.free) && Disjoint(emitter.particlePool.free, conveyor.platforms)
      ensures forall g :: g in particleGroups ==> Disjoint(g.particles, conveyor.platforms)
      ensures character !in conveyor.platforms && character !in conveyor.pool.free
      ensures character !in emitter.particlePool.free && character !in bombs
    {
      var pool, pp := conveyor.pool, emitter.particlePool;
      MadeApart(bombs, conveyor.platforms, bombPool, pool);
      MadeApart(bombs, pool.free, bombPool, pool);
      MadeApart(bombs, pp.free, bombPool, pp);
      MadeApart(pp.free, conveyor.platforms, pp, pool);
      forall g | g in particleGroups ensures Disjoint(g.particles, conveyor.platforms) {
        MadeApart(g.particles, conveyor.platforms, pp, pool);
      }
      assert MadeBy([character], null);
      MadeApart([character], conveyor.platforms, null, pool);
      MadeApart([character], pool.free, null, pool);
      MadeApart([character], pp.free, null, pp);
      MadeApart([character], bombs, null, bombPool);
    }

    /** The character was made by no pool, so it is no platform, no bomb and no free
        particle. */
    lemma CharacterApart()
      requires Owned()
      ensures character !in conveyor.platforms && character !in conveyor.pool.free
      ensures character !in emitter.particlePool.free && character !in bombs
    {
      assert MadeBy([character], null);
      MadeApart([character], conveyor.platforms, null, conveyor.pool);
      MadeApart([character], conveyor.pool.free, null, conveyor.pool);
      MadeApart([character], emitter.particlePool.free, null, emitter.particlePool);
      MadeApart([character], bombs, null, bombPool);
    }

    /** The scene over the shared pools, as their modules leave them: no node twice in a
        free list, and every free node made by its own pool. */
    constructor (bombPool: NodePool, emitter: Emitter)
      requires IsBombPool(bombPool) && Distinct(bombPool.free) && MadeBy(bombPool.free, bombPool)
      requires emitter.Configured() && emitter.animationPool.Uniform()
      requires Distinct(emitter.particlePool.free) && MadeBy(emitter.particlePool.free, emitter.particlePool)
      ensures Valid() && this.bombPool == bombPool && this.emitter == emitter
      ensures fresh(world) && fresh(character) && fresh(conveyor) && fresh(conveyor.pool)
      ensures character.width == CHARACTER_SIZE && character.height == CHARACTER_SIZE
      ensures conveyor.platforms == [] && bombs == [] && particleGroups == [] && score == 0
    {
      world := new World();
      character := new Node(CHARACTER_SIZE, CHARACTER_SIZE, null);
      conveyor := new Conveyor(Earlier);
      this.bombPool, this.emitter := bombPool, emitter;
      bombs, particleGroups, score := [], [], 0;
      new;
      assert AllParticles(particleGroups) + emitter.particlePool.free == emitter.particlePool.free;
    }

    /** `updateCamera()`. The scene's invariant does not look at the camera, so it is kept. */
    method UpdateCamera()
      modifies world`offsetX
      ensures world.offsetX == CameraOffset(character.x, character.width)
      ensures old(Valid()) ==> Valid()
    {
      world.offsetX := ENGINE_WIDTH / 2.0 - character.x - character.width / 2.0;
    }

    /** `beforeUpdate`: the platforms (culled against the camera of the previous frame),
        then the camera. */
    method BeforeUpdate(draws: seq<Draw>) returns (ghost kept: seq<Node>, ghost ds: seq<Draw>, ghost n: nat)
      requires Valid() && |draws| == PLATFORM_COUNT && ValidDraws(draws)
      modifies world`offsetX, conveyor`platforms, conveyor`boxes, conveyor.pool`free
      modifies conveyor.platforms`attached, conveyor.platforms`listeners
      modifies conveyor.pool.free`x, conveyor.pool.free`y, conveyor.pool.free`width, conveyor.pool.free`height,
        conveyor.pool.free`stroke, conveyor.pool.free`attached
      modifies conveyor.platforms`x, conveyor.platforms`y, conveyor.platforms`width, conveyor.platforms`height,
        conveyor.platforms`stroke
      ensures Valid()
      ensures kept == old(Kept(RightEdgeOnScreen(world.offsetX), conveyor.platforms))
      ensures ds == draws[..PLATFORM_COUNT - |kept|]
      ensures |conveyor.platforms| == PLATFORM_COUNT && conveyor.platforms[..|kept|] == kept
      ensures n == |old(conveyor.platforms)| - |kept|
      ensures conveyor.boxes == Extend(old(conveyor.boxes)[n..], old(character.x), old(character.width), ds)
      ensures world.offsetX == CameraOffset(character.x, character.width)
    {
      CharacterApart();
      kept, ds, n := AdvancePlatforms(draws);
      UpdateCamera();
    }

    /** `beforeUpdate`'s call to `updatePlatforms`: the conveyor moves along, and the
        character, the bombs, the particle groups and the other pools stay as they were. */
    method AdvancePlatforms(draws: seq<Draw>) returns (ghost kept: seq<Node>, ghost ds: seq<Draw>, ghost n: nat)
      requires conveyor.Detaches() && Fleet(conveyor.platforms, conveyor.boxes, conveyor.pool.free)
      requires |draws| == PLATFORM_COUNT && ValidDraws(draws)
      requires character !in conveyor.platforms && character !in conveyor.pool.free
      requires bombPool != conveyor.pool && emitter.particlePool != conveyor.pool
      modifies conveyor`platforms, conveyor`boxes, conveyor.pool`free
      modifies conveyor.platforms`attached, conveyor.platforms`listeners
      modifies conveyor.pool.free`x, conveyor.pool.free`y, conveyor.pool.free`width, conveyor.pool.free`height,
        conveyor.pool.free`stroke, conveyor.pool.free`attached
      modifies conveyor.platforms`x, conveyor.platforms`y, conveyor.platforms`width, conveyor.platforms`height,
        conveyor.platforms`stroke
      ensures conveyor.Detaches() && Fleet(conveyor.platforms, conveyor.boxes, conveyor.pool.free)
      ensures old(conveyor.Owned()) ==> conveyor.Owned()
      ensures unchanged(character)
      ensures bombs == old(bombs) && particleGroups == old(particleGroups)
      ensures bombPool.free == old(bombPool.free) && emitter.particlePool.free == old(emitter.particlePool.free)
      ensures emitter.animationPool.free == old(emitter.animationPool.free)
      ensures kept == old(Kept(RightEdgeOnScreen(world.offsetX), conveyor.platforms))
      ensures ds == draws[..PLATFORM_COUNT - |kept|]
      ensures |conveyor.platforms| == PLATFORM_COUNT && conveyor.platforms[..|kept|] == kept
      ensures n == |old(conveyor.platforms)| - |kept|
      ensures conveyor.boxes == Extend(old(conveyor.boxes)[n..], old(character.x), old(character.width), ds)
    {
      kept, ds, n := conveyor.UpdatePlatforms(world, character, draws);
    }

    /** `afterUpdate`: the bombs whose top is within the screen's height stay, in order,
        and the others are only detached; the score becomes the best progress so far;
        once the character's bottom reaches the screen's bottom the world stops and the
        game-over section shows. */
    method AfterUpdate()
      requires Valid()
      modifies this`bombs, bombs`attached, this`score, world`active, this`gameOverVisible
      ensures Valid() && bombs == old(Kept(TopInView, bombs))
      ensures forall k :: 0 <= k < |old(bombs)| ==>
        old(bombs)[k].attached == (old(Keeps(TopInView, bombs[k])) && old(bombs[k].attached))
      ensures score == NextScore(old(score), character.x)
      ensures world.active == (old(world.active) && Bottom(character) < ENGINE_HEIGHT)
      ensures gameOverVisible == (old(gameOverVisible) || Bottom(character) >= ENGINE_HEIGHT)
    {
      assert Owned();
      MadeApart(bombs, conveyor.platforms, bombPool, conveyor.pool);
      CullBombs();
      Judge();
    }

    /** `afterUpdate`'s filter: the bombs whose top is within the screen's height stay,
        in order; the others are detached and dropped (no pool takes them). */
    method CullBombs()
      requires BombsTracked() && MadeBy(bombs, bombPool) && Disjoint(bombs, conveyor.platforms)
      requires Fleet(conveyor.platforms, conveyor.boxes, conveyor.pool.free)
      modifies this`bombs, bombs`attached
      ensures bombs == old(Kept(TopInView, bombs)) && BombsTracked() && MadeBy(bombs, bombPool)
      ensures forall k :: 0 <= k < |old(bombs)| ==>
        old(bombs)[k].attached == (old(Keeps(TopInView, bombs[k])) && old(bombs[k].attached))
      ensures Fleet(conveyor.platforms, conveyor.boxes, conveyor.pool.free)
    {
      ghost var bs, free := bombs, bombPool.free;
      assert Distinct(Kept(TopInView, bs)) && Disjoint(Kept(TopInView, bs), free) by {
        KeptApart(TopInView, bs, free);
      }
      assert MadeBy(Kept(TopInView, bs), bombPool) by {
        CullMembership(TopInView, bs);
        MadeBySubset(Kept(TopInView, bs), bs, bombPool);
      }
      ghost var ps, boxes, pool := conveyor.platforms, conveyor.boxes, conveyor.pool;
      assert |boxes| == |ps| && forall k :: 0 <= k < |ps| ==> ps[k] !in bombs && BoxOf(ps[k]) == boxes[k] && ps[k].attached by {
        FleetPointwise(ps, boxes, pool.free);
      }
      DetachFarBombs(ps);
      assert Fleet(ps, boxes, pool.free) by {
        FleetFromPointwise(ps, boxes, pool.free);
      }
    }

    /** The work of `CullBombs`: the far bombs are detached and the rest stay listed, in
        order. No node of `ps` is a bomb, so each keeps its parent. */
    method DetachFarBombs(ghost ps: seq<Node>)
      requires Distinct(bombs) && forall k :: 0 <= k < |ps| ==> ps[k] !in bombs
      modifies this`bombs, bombs`attached
      ensures bombs == old(Kept(TopInView, bombs)) && bombPool.free == old(bombPool.free)
      ensures forall k :: 0 <= k < |old(bombs)| ==>
        old(bombs)[k].attached == (old(Keeps(TopInView, bombs[k])) && old(bombs[k].attached))
      ensures forall k :: 0 <= k < |ps| ==> ps[k].attached == old(ps[k].attached)
    {
      bombs := CullDetach(world, bombs, TopInView);
    }

    /** The rest of `afterUpdate`: the score becomes the best progress so far, and once
        the character's bottom reaches the screen's bottom the world stops and the
        game-over section shows. */
    method Judge()
      requires Valid()
      modifies this`score, world`active, this`gameOverVisible
      ensures Valid() && score == NextScore(old(score), character.x)
      ensures world.active == (old(world.active) && Bottom(character) < ENGINE_HEIGHT)
      ensures gameOverVisible == (old(gameOverVisible) || Bottom(character) >= ENGINE_HEIGHT)
    {
      score := NextScore(score, character.x);
      if Bottom(character) >= ENGINE_HEIGHT {
        world.Deactivate();
        gameOverVisible := true;
      }
    }

    /** The Back button: it leaves for the menu scene only once the world has stopped. */
    method Back() returns (leave: bool)
      ensures leave == !world.active
    {
      leave := !world.active;
    }

    /** `click`: ignored while the world is stopped; otherwise passed to the throttled
        `handleClick`, and `admitted` is the throttle's verdict (at most one call per
        `BOMB_SPAWN_MIN_GAP` milliseconds). A bomb is thrown exactly when both hold. */
    method Click(admitted: bool, x: real, y: real) returns (b: Node?)
      requires Valid()
      modifies this`bombs
      ensures Valid() && (b != null) == (world.active && admitted)
      ensures b == null ==> bombs == old(bombs)
      ensures b != null ==> fresh(b) && bombs == old(bombs) + [b] && b.attached
    {
      b := null;
      if !world.active {
        return;
      }
      if admitted {
        b := HandleClick(x, y);
      }
    }

    /** `handleClick(x, y)` for a click at screen point `(x, y)`: a new bomb centred on
        the character, thrown from the character's centre on screen towards the click,
        plus the character's own velocity; it gets a collision listener (`BombHit`), is
        listed and is attached. */
    method HandleClick(x: real, y: real) returns (b: Node)
      requires Valid()
      modifies this`bombs
      ensures Valid() && fresh(b) && bombs == old(bombs) + [b]
      ensures b.x + b.width / 2.0 == character.x + character.width / 2.0
      ensures b.y + b.height / 2.0 == character.y + character.height / 2.0
      ensures b.velocity == Aimed(x - ENGINE_WIDTH / 2.0 + character.velocity.vx,
        y - (character.y + character.height / 2.0) + character.velocity.vy, BOMB_SPEED)
      ensures world.offsetX == CameraOffset(character.x, character.width) ==>
        b.velocity.dx == x - (world.offsetX + character.x + character.width / 2.0) + character.velocity.vx
      ensures b.attached && b.listeners == {Collision}
    {
      b := Throw(x, y);
    }

    /** Where `handleClick(x, y)` puts the bomb `b`: centred on the character, and
        thrown towards the click plus the character's own velocity. */
    ghost predicate Thrown(b: Node, x: real, y: real)
      reads b`x, b`y, b`width, b`height, b`velocity
      reads character`x, character`y, character`width, character`height, character`velocity
    {
      && character.velocity.Cartesian?
      && b.x + b.width / 2.0 == character.x + character.width / 2.0
      && b.y + b.height / 2.0 == character.y + character.height / 2.0
      && b.velocity == Aimed(x - ENGINE_WIDTH / 2.0 + character.velocity.vx,
        y - (character.y + character.height / 2.0) + character.velocity.vy, BOMB_SPEED)
    }

    /** The body of `handleClick`: the bomb is made by the bomb pool, so it is no
        platform, and the platforms stay as they were. */
    method Throw(x: real, y: real) returns (b: Node)
      requires BombsTracked() && MadeBy(bombs, bombPool) && IsBombPool(bombPool)
      requires character.velocity.Cartesian?
      requires MadeBy(conveyor.platforms, conveyor.pool) && bombPool != conveyor.pool
      requires Fleet(conveyor.platforms, conveyor.boxes, conveyor.pool.free)
      modifies this`bombs
      ensures fresh(b) && bombs == old(bombs) + [b]
      ensures BombsTracked() && MadeBy(bombs, bombPool)
      ensures Fleet(conveyor.platforms, conveyor.boxes, conveyor.pool.free)
      ensures Thrown(b, x, y) && b.attached && b.listeners == {Collision}
    {
      b := NewBomb(x, y);
      ListBomb(b);
    }

    /** The end of `handleClick`: the new bomb `b` is listed, then attached. It is no
        platform, so the platforms stay as they were. */
    method ListBomb(b: Node)
      requires BombsTracked() && MadeBy(bombs, bombPool) && b.maker == bombPool
      requires b !in bombs && b !in bombPool.free && b !in conveyor.platforms
      requires Fleet(conveyor.platforms, conveyor.boxes, conveyor.pool.free)
      modifies this`bombs, b`attached
      ensures bombs == old(bombs) + [b] && b.attached
      ensures BombsTracked() && MadeBy(bombs, bombPool)
      ensures Fleet(conveyor.platforms, conveyor.boxes, conveyor.pool.free)

    {
      AppendNew(bombs, b);
      MadeByJoin(bombs, [b], bombPool);
      bombs := bombs + [b];
      ghost var ps := conveyor.platforms;
      world.AppendChild(b);
      assert forall p :: p in ps ==> p.attached == old(p.attached);
      assert unchanged(ps);
    }

    /** The bomb `handleClick(x, y)` throws, before it is listed and attached: made by
        the bomb pool, centred on the character, and with a collision listener. */
    method NewBomb(x: real, y: real) returns (b: Node)
      requires IsBombPool(bombPool) && character.velocity.Cartesian?
      requires MadeBy(conveyor.platforms, conveyor.pool) && bombPool != conveyor.pool
      requires Fleet(conveyor.platforms, conveyor.boxes, conveyor.pool.free)
      requires BombsTracked() && MadeBy(bombs, bombPool)
      ensures fresh(b) && b.maker == bombPool && b !in bombs && b !in bombPool.free
      ensures b !in conveyor.platforms && Fleet(conveyor.platforms, conveyor.boxes, conveyor.pool.free)
      ensures bombs == old(bombs) && BombsTracked() && MadeBy(bombs, bombPool)
      ensures Thrown(b, x, y) && b.listeners == {Collision}
    {
      var halfWidth, halfHeight := character.width / 2.0, character.height / 2.0;
      b := CreateBomb(bombPool, character.x + halfWidth, character.y + halfHeight,
        x - ENGINE_WIDTH / 2.0 + character.velocity.vx,
        y - character.y - halfHeight + character.velocity.vy);
      b.x, b.y := b.x - b.width / 2.0, b.y - b.height / 2.0;
      b.On(Collision);
      MadeApart([b], conveyor.platforms, bombPool, conveyor.pool);
    }

    /** The collision handler of bomb `b`: nothing happens unless `b` is still listed.
        Otherwise it is unlisted and detached, a particle group bursts from its centre
        and joins the set (`AddBurst`), and the character is pushed away from the bomb:
        `strength` stands for the factor the handler computes with square roots. */
    method BombHit(b: Node, speeds: seq<real>, strength: real) returns (g: Group?)
      requires Valid() && ValidSpeeds(speeds) && strength > 0.0
      modifies this`bombs, b`attached, this`particleGroups, character`velocity
      modifies emitter.particlePool`free, emitter.particlePool.free`x, emitter.particlePool.free`y,
        emitter.particlePool.free`velocity, emitter.particlePool.free`attached
      modifies emitter.animationPool`free, emitter.animationPool.free`listeners,
        emitter.animationPool.free`running, emitter.animationPool.free`value
      ensures Valid() && bombs == Without(old(bombs), b)
      ensures b !in old(bombs) ==> g == null && particleGroups == old(particleGroups)
      ensures b !in old(bombs) ==> emitter.particlePool.free == old(emitter.particlePool.free)
      ensures b !in old(bombs) ==> character.velocity == old(character.velocity)
      ensures b in old(bombs) ==> g != null && fresh(g) && !b.attached
      ensures b in old(bombs) ==> particleGroups == old(particleGroups) + [g]
      ensures b in old(bombs) ==> (|g.particles| == PARTICLE_GROUP_SIZE &&
        Launched(g.particles, old(b.CentreX()), old(b.CentreY()), speeds))
      ensures b in old(bombs) ==> forall k :: 0 <= k < |g.particles| ==> g.particles[k].attached
      ensures b in old(bombs) ==> g.animation.running && Finish in g.animation.listeners
      ensures b in old(bombs) ==> character.velocity == Pushed(old(character.velocity),
        old(character.CentreX() - b.CentreX()), old(character.CentreY() - b.CentreY()), strength)
    {
      g := null;
      var i := IndexOf(bombs, b);
      if i == -1 {
        return;
      }
      assert Owned();
      g := Collide(b, i, speeds, strength);
    }

    /** The handler once `b` is found at index `i` of the list. Neither a bomb, a particle
        nor the character is a platform, so the platforms stay as they were. */
    method Collide(b: Node, i: int, speeds: seq<real>, strength: real) returns (g: Group)
      requires 0 <= i < |bombs| && i == IndexOf(bombs, b)
      requires Configured() && ValidSpeeds(speeds) && strength > 0.0
      requires BombsTracked() && MadeBy(bombs, bombPool) && ParticlesOwned() && character.maker == null
      requires GroupsTracked() && GroupsFade() && emitter.animationPool.Uniform() && character.velocity.Cartesian?
      requires MadeBy(conveyor.platforms, conveyor.pool) && Fleet(conveyor.platforms, conveyor.boxes, conveyor.pool.free)
      modifies this`bombs, b`attached, this`particleGroups, character`velocity
      modifies emitter.particlePool`free, emitter.particlePool.free`x, emitter.particlePool.free`y,
        emitter.particlePool.free`velocity, emitter.particlePool.free`attached
      modifies emitter.animationPool`free, emitter.animationPool.free`listeners,
        emitter.animationPool.free`running, emitter.animationPool.free`value
      ensures bombs == Without(old(bombs), b) && fresh(g) && !b.attached
      ensures particleGroups == old(particleGroups) + [g]
      ensures |g.particles| == PARTICLE_GROUP_SIZE &&
        Launched(g.particles, old(b.CentreX()), old(b.CentreY()), speeds)
      ensures forall k :: 0 <= k < |g.particles| ==> g.particles[k].attached
      ensures g.animation.running && Finish in g.animation.listeners
      ensures character.velocity == Pushed(old(character.velocity),
        old(character.CentreX() - b.CentreX()), old(character.CentreY() - b.CentreY()), strength)
      ensures BombsTracked() && MadeBy(bombs, bombPool) && ParticlesOwned()
      ensures GroupsTracked() && GroupsFade() && emitter.animationPool.Uniform()
      ensures Fleet(conveyor.platforms, conveyor.boxes, conveyor.pool.free)
    {
      var pool, pp := conveyor.pool, emitter.particlePool;
      ghost var ps, boxes := conveyor.platforms, conveyor.boxes;
      assert forall k :: 0 <= k < |ps| ==> ps[k] !in pp.free && ps[k] != character && ps[k] != b by {
        MadeApart(pp.free, ps, pp, pool);
        assert MadeBy([character], null);
        MadeApart([character], ps, null, pool);
        MadeApart(bombs, ps, bombPool, pool);
      }
      assert |boxes| == |ps| && forall k :: 0 <= k < |ps| ==> BoxOf(ps[k]) == boxes[k] && ps[k].attached by {
        FleetPointwise(ps, boxes, pool.free);
      }
      g := Strike(b, i, speeds, strength, ps);
      assert Fleet(ps, boxes, pool.free) by {
        FleetFromPointwise(ps, boxes, pool.free);
      }
    }

    /** The handler once `b` is found at index `i` of the list: `b` is unlisted and
        detached, its burst joins the set, and the character is pushed away from it. */
    method Strike(b: Node, i: int, speeds: seq<real>, strength: real, ghost ps: seq<Node>) returns (g: Group)
      requires 0 <= i < |bombs| && i == IndexOf(bombs, b)
      requires forall k :: 0 <= k < |ps| ==> ps[k] !in emitter.particlePool.free && ps[k] != character && ps[k] != b
      requires Configured() && ValidSpeeds(speeds) && strength > 0.0
      requires BombsTracked() && MadeBy(bombs, bombPool) && ParticlesOwned() && character.maker == null
      requires GroupsTracked() && GroupsFade() && emitter.animationPool.Uniform() && character.velocity.Cartesian?
      modifies this`bombs, b`attached, this`particleGroups, character`velocity
      modifies emitter.particlePool`free, emitter.particlePool.free`x, emitter.particlePool.free`y,
        emitter.particlePool.free`velocity, emitter.particlePool.free`attached
      modifies emitter.animationPool`free, emitter.animationPool.free`listeners,
        emitter.animationPool.free`running, emitter.animationPool.free`value
      ensures bombs == Without(old(bombs), b) && fresh(g) && !b.attached
      ensures particleGroups == old(particleGroups) + [g]
      ensures |g.particles| == PARTICLE_GROUP_SIZE &&
        Launched(g.particles, old(b.CentreX()), old(b.CentreY()), speeds)
      ensures forall k :: 0 <= k < |g.particles| ==> g.particles[k].attached
      ensures g.animation.running && Finish in g.animation.listeners
      ensures character.velocity == Pushed(old(character.velocity),
        old(character.CentreX() - b.CentreX()), old(character.CentreY() - b.CentreY()), strength)
      ensures BombsTracked() && MadeBy(bombs, bombPool) && ParticlesOwned()
      ensures GroupsTracked() && GroupsFade() && emitter.animationPool.Uniform()
      ensures forall k :: 0 <= k < |ps| ==> BoxOf(ps[k]) == old(BoxOf(ps[k])) && ps[k].attached == old(ps[k].attached)
    {
      var cx, cy := b.CentreX(), b.CentreY();
      var dx, dy := character.CentreX() - b.CentreX(), character.CentreY() - b.CentreY();
      var pp := emitter.particlePool;
      ghost var bs := bombs;
      assert Distinct(pp.free) && character !in pp.free && b !in pp.free by {
        DistinctSplit(AllParticles(particleGroups), pp.free);
        assert MadeBy([character], null);
        MadeApart([character], pp.free, null, pp);
        MadeApart(bombs, pp.free, bombPool, pp);
      }
      g := Explode(b, i, cx, cy, dx, dy, speeds, strength, ps);
      assert MadeBy(bombs, bombPool) by {
        MadeBySubset(bombs, bs, bombPool);
      }
    }

    /** `removeElements(bombs, bombIndex, 1)` and `removeChild(bomb)`. */
    method Unlist(b: Node, i: int, ghost ps: seq<Node>)
      requires 0 <= i < |bombs| && i == IndexOf(bombs, b)
      requires forall k :: 0 <= k < |ps| ==> ps[k] != b
      modifies this`bombs, b`attached
      ensures bombs == Without(old(bombs), b) && !b.attached
      ensures old(BombsTracked()) ==> BombsTracked()
      ensures forall k :: 0 <= k < |ps| ==> BoxOf(ps[k]) == old(BoxOf(ps[k])) && ps[k].attached == old(ps[k].attached)
    {
      ghost var s := bombs;
      bombs := bombs[..i] + bombs[i + 1..];
      assert bombs == Without(s, b);
      if Disjoint(s, bombPool.free) {
        WithoutApart(s, b, bombPool.free);
      }
      world.RemoveChild(b);
    }


    /** The handler's work, in its order: `b` is unlisted and detached, the burst from
        `(cx, cy)` joins the set, and the character is pushed by `(dx, dy)`. No node of
        `ps` is `b`, a free particle or the character, so each keeps its box and parent. */
    method Explode(b: Node, i: int, cx: real, cy: real, dx: real, dy: real, speeds: seq<real>, strength: real,
      ghost ps: seq<Node>) returns (g: Group)
      requires 0 <= i < |bombs| && i == IndexOf(bombs, b) && b !in emitter.particlePool.free
      requires forall k :: 0 <= k < |ps| ==> ps[k] !in emitter.particlePool.free && ps[k] != character && ps[k] != b
      requires Configured() && ValidSpeeds(speeds)
      requires Distinct(emitter.particlePool.free) && emitter.animationPool.Uniform()
      requires character.velocity.Cartesian? && strength > 0.0 && character !in emitter.particlePool.free
      modifies this`bombs, b`attached, this`particleGroups, character`velocity
      modifies emitter.particlePool`free, emitter.particlePool.free`x, emitter.particlePool.free`y,
        emitter.particlePool.free`velocity, emitter.particlePool.free`attached
      modifies emitter.animationPool`free, emitter.animationPool.free`listeners,
        emitter.animationPool.free`running, emitter.animationPool.free`value
      ensures bombs == Without(old(bombs), b) && !b.attached
      ensures fresh(g) && particleGroups == old(particleGroups) + [g]
      ensures |g.particles| == PARTICLE_GROUP_SIZE && Launched(g.particles, cx, cy, speeds)
      ensures forall k :: 0 <= k < |g.particles| ==> g.particles[k].attached
      ensures g.animation.running && Finish in g.animation.listeners
      ensures character.velocity == Pushed(old(character.velocity), dx, dy, strength)
      ensures forall k :: 0 <= k < |ps| ==> BoxOf(ps[k]) == old(BoxOf(ps[k])) && ps[k].attached == old(ps[k].attached)
      ensures old(BombsTracked()) ==> BombsTracked()
      ensures old(GroupsTracked()) ==> GroupsTracked() && Distinct(emitter.particlePool.free)
      ensures old(GroupsFade()) ==> GroupsFade() && emitter.animationPool.Uniform()
      ensures old(ParticlesOwned()) ==> ParticlesOwned()
    {
      var v := character.velocity;
      assert bombPool != emitter.particlePool;
      Unlist(b, i, ps);
      g := AddBurst(cx, cy, speeds);
      character.velocity := Pushed(v, dx, dy, strength);
    }

    /** The burst of a bomb hit at `(x, y)` joins the set of groups. Its particles come
        from the free list or are new, so each particle stays in at most one place. */
    method AddBurst(x: real, y: real, speeds: seq<real>) returns (g: Group)
      requires Configured() && ValidSpeeds(speeds)
      requires Distinct(emitter.particlePool.free) && emitter.animationPool.Uniform()
      modifies this`particleGroups
      modifies emitter.particlePool`free, emitter.particlePool.free`x, emitter.particlePool.free`y,
        emitter.particlePool.free`velocity, emitter.particlePool.free`attached
      modifies emitter.animationPool`free, emitter.animationPool.free`listeners,
        emitter.animationPool.free`running, emitter.animationPool.free`value
      ensures fresh(g) && particleGroups == old(particleGroups) + [g]
      ensures |g.particles| == PARTICLE_GROUP_SIZE && Launched(g.particles, x, y, speeds)
      ensures forall k :: 0 <= k < |g.particles| ==> g.particles[k].attached
      ensures g.animation.running && Finish in g.animation.listeners
      ensures old(GroupsTracked()) ==> GroupsTracked() && Distinct(emitter.particlePool.free)
      ensures old(GroupsFade()) ==> GroupsFade() && emitter.animationPool.Uniform()
      ensures old(ParticlesOwned()) ==> ParticlesOwned()
    {
      ghost var gs0, free0 := particleGroups, emitter.particlePool.free;
      AllParticlesAllocated(gs0);
      g := Burst(x, y, speeds);
      if g !in particleGroups {
        particleGroups := particleGroups + [g];
      }
      if MadeBy(free0, emitter.particlePool) {
        PoppedMade(g.particles, free0, emitter.particlePool.free, emitter.particlePool);
      }
      if Distinct(gs0) && ParticlesApart(gs0, free0) {
        assert forall k :: 0 <= k < |g.particles| ==> g.particles[k] in free0 || g.particles[k] !in AllParticles(gs0);
        GroupJoins(gs0, g, free0, emitter.particlePool.free);
        AppendNew(gs0, g);
      }
    }

    /** The burst of a bomb hit at `(x, y)`: a new particle group whose animation gets
        a `finish` listener and whose particles are attached. The particles are the
        last free ones, in pop order, then new ones. */
    method Burst(x: real, y: real, speeds: seq<real>) returns (g: Group)
      requires Configured() && ValidSpeeds(speeds)
      requires Distinct(emitter.particlePool.free) && emitter.animationPool.Uniform()
      modifies emitter.particlePool`free, emitter.particlePool.free`x, emitter.particlePool.free`y,
        emitter.particlePool.free`velocity, emitter.particlePool.free`attached
      modifies emitter.animationPool`free, emitter.animationPool.free`listeners,
        emitter.animationPool.free`running, emitter.animationPool.free`value
      ensures fresh(g) && |g.particles| == PARTICLE_GROUP_SIZE && Launched(g.particles, x, y, speeds)
      ensures Popped(g.particles, 0, PARTICLE_GROUP_SIZE, old(emitter.particlePool.free), emitter.particlePool.free)
      ensures forall k :: 0 <= k < |g.particles| ==>
        (g.particles[k] in old(emitter.particlePool.free) ||
         (fresh(g.particles[k]) && g.particles[k].maker == emitter.particlePool))
      ensures forall k :: 0 <= k < |g.particles| ==> g.particles[k].attached
      ensures g.animation.running && Finish in g.animation.listeners
      ensures emitter.animationPool.Uniform() && g.animation.from == 1.0 && g.animation.to == 0.0
    {
      g := emitter.CreateGroup(x, y, speeds);
      g.animation.On(Finish);
      world.AppendAll(g.particles);
    }

    /** A group's animation finishes: the particle module's listener recycles the group,
        then the scene's listener deletes it from the set. */
    method GroupFinished(g: Group)
      requires Valid() && g.animation.from == 1.0 && g.animation.to == 0.0
      modifies this`particleGroups, emitter.particlePool`free, g.particles`attached, g.particles`listeners
      modifies emitter.animationPool`free, g.animation`running, g.animation`listeners, g.animation`value
      ensures particleGroups == Without(old(particleGroups), g)
      ensures emitter.particlePool.free == old(emitter.particlePool.free) + g.particles
      ensures forall k :: 0 <= k < |g.particles| ==> !g.particles[k].attached
      ensures emitter.animationPool.free == old(emitter.animationPool.free) + [g.animation]
      ensures emitter.animationPool.Uniform() && !g.animation.running
      ensures g in old(particleGroups) ==> Valid()
    {
      ghost var inside := g in particleGroups;
      ghost var ps, boxes, pool := conveyor.platforms, conveyor.boxes, conveyor.pool;
      assert inside ==> |boxes| == |ps| && forall k :: 0 <= k < |ps| ==>
        ps[k] !in g.particles && BoxOf(ps[k]) == boxes[k] && ps[k].attached by {
        if inside {
          Separated();
          FleetPointwise(ps, boxes, pool.free);
        }
      }
      Retire(g, inside, ps);
      assert inside ==> Fleet(ps, boxes, pool.free) by {
        if inside {
          FleetFromPointwise(ps, boxes, pool.free);
        }
      }
    }

    /** The two finish listeners of `g` in their order: the particle module recycles
        the group, then the scene deletes it from the set. When `g` was in the set, what
        the scene keeps about its groups and pools still holds, and no node of `ps` is a
        particle of `g`, so each keeps its box and parent. */
    method Retire(g: Group, ghost inside: bool, ghost ps: seq<Node>)
      requires inside == (g in particleGroups)
      requires Configured() && emitter.animationPool.Uniform()
      requires g.animation.from == 1.0 && g.animation.to == 0.0
      requires inside ==> GroupsTracked() && ParticlesOwned() && GroupsFade()
      requires inside ==> forall k :: 0 <= k < |ps| ==> ps[k] !in g.particles
      modifies this`particleGroups, emitter.particlePool`free, g.particles`attached, g.particles`listeners
      modifies emitter.animationPool`free, g.animation`running, g.animation`listeners, g.animation`value
      ensures particleGroups == Without(old(particleGroups), g)
      ensures emitter.particlePool.free == old(emitter.particlePool.free) + g.particles
      ensures forall k :: 0 <= k < |g.particles| ==> !g.particles[k].attached
      ensures emitter.animationPool.free == old(emitter.animationPool.free) + [g.animation]
      ensures emitter.animationPool.Uniform() && !g.animation.running
      ensures bombs == old(bombs) && bombPool.free == old(bombPool.free) && character.velocity == old(character.velocity)
      ensures conveyor.platforms == old(conveyor.platforms) && conveyor.pool.free == old(conveyor.pool.free)
      ensures inside ==> GroupsTracked() && ParticlesOwned() && GroupsFade()
      ensures inside ==> forall k :: 0 <= k < |ps| ==> ps[k].attached == old(ps[k].attached)
      ensures forall k :: 0 <= k < |ps| ==>
        ps[k].x == old(ps[k].x) && ps[k].y == old(ps[k].y) && ps[k].width == old(ps[k].width) &&
        ps[k].height == old(ps[k].height) && ps[k].stroke == old(ps[k].stroke)
    {
      ghost var gs0, free0, pp := particleGroups, emitter.particlePool.free, emitter.particlePool;
      ghost var gs1 := Without(gs0, g);
      assert inside ==> && Distinct(gs1) && ParticlesApart(gs1, free0 + g.particles)
                        && GroupsMadeBy(gs1, pp) && MadeBy(free0 + g.particles, pp)
                        && forall k :: 0 <= k < |gs1| ==> gs1[k].animation.from == 1.0 && gs1[k].animation.to == 0.0 by {
        if inside {
          GroupLeaves(gs0, g, free0);
          MadeByJoin(free0, g.particles, pp);
          FadesWithout(gs0, g);
        }
      }
      Recycle(g, inside, ps);
      particleGroups := Without(particleGroups, g);
    }

    /** The particle module's finish listener for `g`: it leaves the scene's lists and
        the other pools alone, and when `g` is listed no node of `ps` is one of its
        particles, so each keeps its box and parent. */
    method Recycle(g: Group, ghost inside: bool, ghost ps: seq<Node>)
      requires Configured() && emitter.animationPool.Uniform()
      requires g.animation.from == 1.0 && g.animation.to == 0.0
      requires inside ==> forall k :: 0 <= k < |ps| ==> ps[k] !in g.particles
      modifies emitter.particlePool`free, g.particles`attached, g.particles`listeners
      modifies emitter.animationPool`free, g.animation`running, g.animation`listeners, g.animation`value
      ensures emitter.particlePool.free == old(emitter.particlePool.free) + g.particles
      ensures forall k :: 0 <= k < |g.particles| ==> !g.particles[k].attached
      ensures emitter.animationPool.free == old(emitter.animationPool.free) + [g.animation]
      ensures emitter.animationPool.Uniform() && !g.animation.running
      ensures bombs == old(bombs) && bombPool.free == old(bombPool.free) && character.velocity == old(character.velocity)
      ensures conveyor.platforms == old(conveyor.platforms) && conveyor.pool.free == old(conveyor.pool.free)
      ensures inside ==> forall k :: 0 <= k < |ps| ==> ps[k].attached == old(ps[k].attached)
      ensures forall k :: 0 <= k < |ps| ==>
        ps[k].x == old(ps[k].x) && ps[k].y == old(ps[k].y) && ps[k].width == old(ps[k].width) &&
        ps[k].height == old(ps[k].height) && ps[k].stroke == old(ps[k].stroke)
    {
      emitter.FinishGroup(world, g);
    }

    /** The state `enter` puts the scene in, besides the platforms: no score, the
        character at rest at its start and attached, and the camera centred on it. */
    predicate Restarted()
      reads this, character, world
    {
      && score == 0 && character.velocity == Cartesian(0.0, 0.0) && character.attached
      && character.x == CHARACTER_INIT_X && character.y == CHARACTER_INIT_Y
      && world.offsetX == CameraOffset(character.x, character.width)
    }

    /** `enter`: the score is reset, the character is put back at its start, at rest and
        attached, the camera centres it, the platforms are updated against that camera
        (after `exit` the list is empty, so the first platform is centred under the
        character), the game-over section hides and the world starts. */
    method Enter(draws: seq<Draw>) returns (ghost kept: seq<Node>, ghost ds: seq<Draw>)
      requires Valid() && |draws| == PLATFORM_COUNT && ValidDraws(draws)
      modifies this`score, character`velocity, character`x, character`y, character`attached
      modifies world`offsetX, world`active, this`gameOverVisible
      modifies conveyor`platforms, conveyor`boxes, conveyor.pool`free
      modifies conveyor.platforms`attached, conveyor.platforms`listeners
      modifies conveyor.pool.free`x, conveyor.pool.free`y, conveyor.pool.free`width, conveyor.pool.free`height,
        conveyor.pool.free`stroke, conveyor.pool.free`attached
      modifies conveyor.platforms`x, conveyor.platforms`y, conveyor.platforms`width, conveyor.platforms`height,
        conveyor.platforms`stroke
      ensures Valid() && Restarted() && world.active && !gameOverVisible
      ensures |kept| <= |old(conveyor.platforms)| && ds == draws[..PLATFORM_COUNT - |kept|]
      ensures conveyor.boxes == Extend(old(conveyor.boxes)[|old(conveyor.platforms)| - |kept|..],
        CHARACTER_INIT_X, old(character.width), ds)
      ensures |conveyor.platforms| == PLATFORM_COUNT && conveyor.platforms[..|kept|] == kept
      ensures old(conveyor.platforms) == [] ==>
        conveyor.boxes == Extend([], CHARACTER_INIT_X, old(character.width), draws)
    {
      assert character !in conveyor.platforms && character !in conveyor.pool.free by {
        CharacterApart();
      }
      assert |conveyor.platforms| <= PLATFORM_COUNT;
      kept, ds := Reenter(draws);
    }

    /** `enter` leaves the bombs and the particle groups alone, so what the scene keeps
        about them still holds. */
    method Reenter(draws: seq<Draw>) returns (ghost kept: seq<Node>, ghost ds: seq<Draw>)
      requires conveyor.Detaches() && Fleet(conveyor.platforms, conveyor.boxes, conveyor.pool.free)
      requires |draws| == PLATFORM_COUNT && ValidDraws(draws)
      requires character !in conveyor.platforms && character !in conveyor.pool.free
      requires Configured() && BombsTracked() && ParticlesOwned() && GroupsTracked() && GroupsFade()
      requires MadeBy(bombPool.free, bombPool) && emitter.animationPool.Uniform() && MadeBy(bombs, bombPool)
      modifies this`score, character`velocity, character`x, character`y, character`attached
      modifies world`offsetX, world`active, this`gameOverVisible
      modifies conveyor`platforms, conveyor`boxes, conveyor.pool`free
      modifies conveyor.platforms`attached, conveyor.platforms`listeners
      modifies conveyor.pool.free`x, conveyor.pool.free`y, conveyor.pool.free`width, conveyor.pool.free`height,
        conveyor.pool.free`stroke, conveyor.pool.free`attached
      modifies conveyor.platforms`x, conveyor.platforms`y, conveyor.platforms`width, conveyor.platforms`height,
        conveyor.platforms`stroke
      ensures Restarted() && world.active && !gameOverVisible
      ensures |kept| <= |old(conveyor.platforms)| && ds == draws[..PLATFORM_COUNT - |kept|]
      ensures conveyor.boxes == Extend(old(conveyor.boxes)[|old(conveyor.platforms)| - |kept|..],
        CHARACTER_INIT_X, old(character.width), ds)
      ensures Fleet(conveyor.platforms, conveyor.boxes, conveyor.pool.free)
      ensures |conveyor.platforms| == PLATFORM_COUNT && conveyor.platforms[..|kept|] == kept
      ensures old(conveyor.platforms) == [] ==>
        conveyor.boxes == Extend([], CHARACTER_INIT_X, old(character.width), draws)
      ensures old(conveyor.Owned()) ==> conveyor.Owned()
      ensures BombsTracked() && ParticlesOwned() && GroupsTracked() && GroupsFade()
      ensures MadeBy(bombPool.free, bombPool) && emitter.animationPool.Uniform() && MadeBy(bombs, bombPool)
    {
      kept, ds := Restart(draws);
    }

    /** `enter` on the conveyor's platforms, which do not include the character. */
    method Restart(draws: seq<Draw>) returns (ghost kept: seq<Node>, ghost ds: seq<Draw>)
      requires conveyor.Detaches() && Fleet(conveyor.platforms, conveyor.boxes, conveyor.pool.free)
      requires |draws| == PLATFORM_COUNT && ValidDraws(draws)
      requires character !in conveyor.platforms && character !in conveyor.pool.free && Configured()
      modifies this`score, character`velocity, character`x, character`y, character`attached
      modifies world`offsetX, world`active, this`gameOverVisible
      modifies conveyor`platforms, conveyor`boxes, conveyor.pool`free
      modifies conveyor.platforms`attached, conveyor.platforms`listeners
      modifies conveyor.pool.free`x, conveyor.pool.free`y, conveyor.pool.free`width, conveyor.pool.free`height,
        conveyor.pool.free`stroke, conveyor.pool.free`attached
      modifies conveyor.platforms`x, conveyor.platforms`y, conveyor.platforms`width, conveyor.platforms`height,
        conveyor.platforms`stroke
      ensures Restarted() && world.active && !gameOverVisible
      ensures |kept| <= |old(conveyor.platforms)| && ds == draws[..PLATFORM_COUNT - |kept|]
      ensures conveyor.boxes == Extend(old(conveyor.boxes)[|old(conveyor.platforms)| - |kept|..],
        CHARACTER_INIT_X, old(character.width), ds)
      ensures Fleet(conveyor.platforms, conveyor.boxes, conveyor.pool.free)
      ensures |conveyor.platforms| == PLATFORM_COUNT && conveyor.platforms[..|kept|] == kept
      ensures old(conveyor.platforms) == [] ==>
        conveyor.boxes == Extend([], CHARACTER_INIT_X, old(character.width), draws)
      ensures old(conveyor.Owned()) ==> conveyor.Owned()
      ensures bombs == old(bombs) && particleGroups == old(particleGroups) && bombPool.free == old(bombPool.free)
      ensures emitter.particlePool.free == old(emitter.particlePool.free)
      ensures emitter.animationPool.free == old(emitter.animationPool.free)
    {
      Reset();
      kept, ds := Start(draws);
    }

    /** The first half of `enter`: the score, the character and the camera. */
    method Reset()
      requires Fleet(conveyor.platforms, conveyor.boxes, conveyor.pool.free) && character !in conveyor.platforms
      modifies this`score, character`velocity, character`x, character`y, character`attached, world`offsetX
      ensures Restarted() && character.width == old(character.width)
      ensures conveyor.platforms == old(conveyor.platforms) && conveyor.boxes == old(conveyor.boxes)
      ensures Fleet(conveyor.platforms, conveyor.boxes, conveyor.pool.free)
      ensures bombs == old(bombs) && particleGroups == old(particleGroups) && bombPool.free == old(bombPool.free)
      ensures emitter.particlePool.free == old(emitter.particlePool.free)
      ensures emitter.animationPool.free == old(emitter.animationPool.free)
    {
      ghost var ps, boxes, free := conveyor.platforms, conveyor.boxes, conveyor.pool.free;
      assert |boxes| == |ps| && forall k :: 0 <= k < |ps| ==> ps[k] != character && BoxOf(ps[k]) == boxes[k] && ps[k].attached by {
        FleetPointwise(ps, boxes, free);
      }
      score := 0;
      PlaceCharacter();
      UpdateCamera();
      assert Fleet(ps, boxes, free) by {
        FleetFromPointwise(ps, boxes, free);
      }
    }

    /** The character at rest at its start, three sizes above the highest platform top,
        and attached. */
    method PlaceCharacter()
      modifies character`velocity, character`x, character`y, character`attached
      ensures character.velocity == Cartesian(0.0, 0.0) && character.attached
      ensures character.x == CHARACTER_INIT_X && character.y == CHARACTER_INIT_Y
    {
      character.velocity := Cartesian(0.0, 0.0);
      character.x, character.y := CHARACTER_INIT_X, CHARACTER_INIT_Y;
      world.AppendChild(character);
    }

    /** The second half of `enter`: the platforms, then the game-over section hides and
        the world starts. The rest of the scene stays as `Reset` left it. */
    method Start(draws: seq<Draw>) returns (ghost kept: seq<Node>, ghost ds: seq<Draw>)
      requires bombPool != conveyor.pool && emitter.particlePool != conveyor.pool
      requires conveyor.Detaches() && Fleet(conveyor.platforms, conveyor.boxes, conveyor.pool.free)
      requires |draws| == PLATFORM_COUNT && ValidDraws(draws) && Restarted()
      requires character !in conveyor.platforms && character !in conveyor.pool.free
      modifies world`active, this`gameOverVisible
      modifies conveyor`platforms, conveyor`boxes, conveyor.pool`free
      modifies conveyor.platforms`attached, conveyor.platforms`listeners
      modifies conveyor.pool.free`x, conveyor.pool.free`y, conveyor.pool.free`width, conveyor.pool.free`height,
        conveyor.pool.free`stroke, conveyor.pool.free`attached
      modifies conveyor.platforms`x, conveyor.platforms`y, conveyor.platforms`width, conveyor.platforms`height,
        conveyor.platforms`stroke
      ensures Restarted() && world.active && !gameOverVisible && character.width == old(character.width)
      ensures |kept| <= |old(conveyor.platforms)|
      ensures kept == old(Kept(RightEdgeOnScreen(world.offsetX), conveyor.platforms)) && ds == draws[..PLATFORM_COUNT - |kept|]
      ensures conveyor.boxes == Extend(old(conveyor.boxes)[|old(conveyor.platforms)| - |kept|..],
        CHARACTER_INIT_X, old(character.width), ds)
      ensures Fleet(conveyor.platforms, conveyor.boxes, conveyor.pool.free)
      ensures |conveyor.platforms| == PLATFORM_COUNT && conveyor.platforms[..|kept|] == kept
      ensures old(conveyor.platforms) == [] ==>
        conveyor.boxes == Extend([], CHARACTER_INIT_X, old(character.width), draws)
      ensures character !in conveyor.platforms && character !in conveyor.pool.free
      ensures old(conveyor.Owned()) ==> conveyor.Owned()
      ensures bombs == old(bombs) && particleGroups == old(particleGroups) && bombPool.free == old(bombPool.free)
      ensures emitter.particlePool.free == old(emitter.particlePool.free)
      ensures emitter.animationPool.free == old(emitter.animationPool.free)
    {
      kept, ds := LayPlatforms(draws);
      ShowWorld();
    }

    /** `enter`'s `updatePlatforms()`, which leaves the rest of the scene as `Reset` left
        it. */
    method LayPlatforms(draws: seq<Draw>) returns (ghost kept: seq<Node>, ghost ds: seq<Draw>)
      requires bombPool != conveyor.pool && emitter.particlePool != conveyor.pool
      requires conveyor.Detaches() && Fleet(conveyor.platforms, conveyor.boxes, conveyor.pool.free)
      requires |draws| == PLATFORM_COUNT && ValidDraws(draws) && Restarted()
      requires character !in conveyor.platforms && character !in conveyor.pool.free
      modifies conveyor`platforms, conveyor`boxes, conveyor.pool`free
      modifies conveyor.platforms`attached, conveyor.platforms`listeners
      modifies conveyor.pool.free`x, conveyor.pool.free`y, conveyor.pool.free`width, conveyor.pool.free`height,
        conveyor.pool.free`stroke, conveyor.pool.free`attached
      modifies conveyor.platforms`x, conveyor.platforms`y, conveyor.platforms`width, conveyor.platforms`height,
        conveyor.platforms`stroke
      ensures Restarted() && character.width == old(character.width)
      ensures |kept| <= |old(conveyor.platforms)|
      ensures kept == old(Kept(RightEdgeOnScreen(world.offsetX), conveyor.platforms)) && ds == draws[..PLATFORM_COUNT - |kept|]
      ensures conveyor.boxes == Extend(old(conveyor.boxes)[|old(conveyor.platforms)| - |kept|..],
        CHARACTER_INIT_X, old(character.width), ds)
      ensures Fleet(conveyor.platforms, conveyor.boxes, conveyor.pool.free)
      ensures |conveyor.platforms| == PLATFORM_COUNT && conveyor.platforms[..|kept|] == kept
      ensures old(conveyor.platforms) == [] ==>
        conveyor.boxes == Extend([], CHARACTER_INIT_X, old(character.width), draws)
      ensures character !in conveyor.platforms && character !in conveyor.pool.free
      ensures old(conveyor.Owned()) ==> conveyor.Owned()
      ensures bombs == old(bombs) && particleGroups == old(particleGroups)
    {
      assert conveyor.platforms == [] ==> conveyor.boxes == [] && draws[..PLATFORM_COUNT] == draws;
      ghost var n;
      kept, ds, n := conveyor.UpdatePlatforms(world, character, draws);
    }

    /** The end of `enter`: the game-over section hides and the world starts. */
    method ShowWorld()
      requires Fleet(conveyor.platforms, conveyor.boxes, conveyor.pool.free) && Restarted()
      modifies this`gameOverVisible, world`active
      ensures !gameOverVisible && world.active
      ensures Fleet(conveyor.platforms, conveyor.boxes, conveyor.pool.free) && Restarted()
      ensures bombs == old(bombs) && particleGroups == old(particleGroups) && bombPool.free == old(bombPool.free)
      ensures emitter.particlePool.free == old(emitter.particlePool.free)
      ensures emitter.animationPool.free == old(emitter.animationPool.free)
    {
      gameOverVisible := false;
      world.Activate();
    }

    /** `exit` as written: every child of the world is detached, the world stops, the
        platforms go back to their pool and the list is emptied, every bomb is recycled,
        and every group's animation is finished, which recycles the group and deletes it
        from the set. The bomb list is NOT emptied, so the recycled bombs stay listed:
        whenever there was a bomb, one of them is now both live and free. */
    method ExitAsWritten(children: seq<Node>)
      requires Valid()
      modifies children`attached, world`active
      modifies conveyor`platforms, conveyor`boxes, conveyor.pool`free, conveyor.platforms`attached,
        conveyor.platforms`listeners
      modifies bombPool`free, bombs`attached, bombs`listeners
      modifies this`particleGroups, emitter.particlePool`free, AllParticles(particleGroups)`attached,
        AllParticles(particleGroups)`listeners, emitter.animationPool`free, Animations(particleGroups)`running,
        Animations(particleGroups)`listeners, Animations(particleGroups)`value
      ensures !world.active
      ensures conveyor.platforms == [] && conveyor.pool.free == old(conveyor.pool.free) + old(conveyor.platforms)
      ensures bombs == old(bombs) && bombPool.free == old(bombPool.free) + old(bombs)
      ensures particleGroups == []
      ensures emitter.particlePool.free == old(emitter.particlePool.free) + AllParticles(old(particleGroups))
      ensures emitter.animationPool.free == old(emitter.animationPool.free) + Animations(old(particleGroups))
      ensures forall k :: 0 <= k < |children| ==> !children[k].attached
      ensures forall k :: 0 <= k < |bombs| ==> !bombs[k].attached && bombs[k].listeners == {}
      ensures Consistent() && (old(bombs) != [] ==> !BombsTracked())
    {
      ghost var bs, free, gs, pfree := bombs, bombPool.free, particleGroups, emitter.particlePool.free;
      assert MadeBy(free + bs, bombPool) && MadeBy(pfree + AllParticles(gs), emitter.particlePool) by {
        MadeByJoin(free, bs, bombPool);
        AllParticlesMade(gs, emitter.particlePool);
        MadeByJoin(pfree, AllParticles(gs), emitter.particlePool);
      }
      assert bs != [] ==> !Disjoint(bs, free + bs) by {
        if bs != [] {
          StaleBombListed(bs, free);
        }
      }
      Leave(children);
    }

    /** `exit`'s work, in its order: the world is torn down, then the bombs and the
        particle groups are released. Afterwards the platform pool holds every platform
        exactly once, and the groups are tracked as before. */
    method Leave(children: seq<Node>)
      requires Configured() && conveyor.Owned() && GroupsTracked() && GroupsFade() && emitter.animationPool.Uniform()
      requires Distinct(conveyor.platforms) && Distinct(conveyor.pool.free) && Disjoint(conveyor.platforms, conveyor.pool.free)
      modifies children`attached, world`active
      modifies conveyor`platforms, conveyor`boxes, conveyor.pool`free, conveyor.platforms`attached,
        conveyor.platforms`listeners
      modifies bombPool`free, bombs`attached, bombs`listeners
      modifies this`particleGroups, emitter.particlePool`free, AllParticles(particleGroups)`attached,
        AllParticles(particleGroups)`listeners, emitter.animationPool`free, Animations(particleGroups)`running,
        Animations(particleGroups)`listeners, Animations(particleGroups)`value
      ensures !world.active
      ensures conveyor.platforms == [] && conveyor.pool.free == old(conveyor.pool.free) + old(conveyor.platforms)
      ensures conveyor.boxes == [] && Distinct(conveyor.pool.free) && MadeBy(conveyor.pool.free, conveyor.pool)
      ensures bombs == old(bombs) && bombPool.free == old(bombPool.free) + old(bombs)
      ensures particleGroups == [] && character.velocity == old(character.velocity)
      ensures emitter.particlePool.free == old(emitter.particlePool.free) + AllParticles(old(particleGroups))
      ensures emitter.animationPool.free == old(emitter.animationPool.free) + Animations(old(particleGroups))
      ensures forall k :: 0 <= k < |children| ==> !children[k].attached
      ensures forall k :: 0 <= k < |bombs| ==> !bombs[k].attached && bombs[k].listeners == {}
      ensures GroupsTracked() && emitter.animationPool.Uniform()
    {
      TearDown(children);
      Release(children);
    }

    /** The second half of `exit`: every bomb is recycled and every group finished,
        which keeps the world's children detached. */
    method Release(ghost children: seq<Node>)
      requires Configured() && GroupsFade() && emitter.animationPool.Uniform()
      requires forall k :: 0 <= k < |children| ==> !children[k].attached
      modifies bombPool`free, bombs`attached, bombs`listeners
      modifies this`particleGroups, emitter.particlePool`free, AllParticles(particleGroups)`attached,
        AllParticles(particleGroups)`listeners, emitter.animationPool`free, Animations(particleGroups)`running,
        Animations(particleGroups)`listeners, Animations(particleGroups)`value
      ensures bombPool.free == old(bombPool.free) + bombs
      ensures particleGroups == []
      ensures emitter.particlePool.free == old(emitter.particlePool.free) + AllParticles(old(particleGroups))
      ensures emitter.animationPool.free == old(emitter.animationPool.free) + Animations(old(particleGroups))
      ensures forall k :: 0 <= k < |children| ==> !children[k].attached
      ensures forall k :: 0 <= k < |bombs| ==> !bombs[k].attached && bombs[k].listeners == {}
      ensures old(GroupsTracked()) ==> GroupsTracked()
      ensures emitter.animationPool.Uniform()
    {
      RecycleBombs();
      var gs := particleGroups;
      FinishAllGroups();
      forall k | 0 <= k < |bombs| ensures bombs[k].listeners == {} {
        var p := bombs[k];
        if p in AllParticles(gs) {
          AllParticlesFrom(gs, p);
          var j :| 0 <= j < |gs| && p in gs[j].particles;
          var m :| 0 <= m < |gs[j].particles| && gs[j].particles[m] == p;
        }
      }
    }

    /** The first half of `exit`: the world's children are detached, the world stops,
        and the platforms go back to their pool. */
    method TearDown(children: seq<Node>)
      requires Configured()
      requires Distinct(conveyor.platforms) && Distinct(conveyor.pool.free) && Disjoint(conveyor.platforms, conveyor.pool.free)
      modifies children`attached, world`active
      modifies conveyor`platforms, conveyor`boxes, conveyor.pool`free, conveyor.platforms`attached,
        conveyor.platforms`listeners
      ensures !world.active
      ensures forall k :: 0 <= k < |children| ==> !children[k].attached
      ensures conveyor.platforms == [] && conveyor.pool.free == old(conveyor.pool.free) + old(conveyor.platforms)
      ensures Fleet(conveyor.platforms, conveyor.boxes, conveyor.pool.free)
      ensures old(conveyor.Owned()) ==> conveyor.Owned()
    {
      world.RemoveAll(children);
      world.Deactivate();
      conveyor.Flush();
    }

    /** `exit` with the bomb list emptied after the work `ExitAsWritten` does, as the
        menu scene does with its own list: every bomb ends up in exactly one place, the
        pool. */
    method Exit(children: seq<Node>)
      requires Valid()
      modifies children`attached, world`active
      modifies conveyor`platforms, conveyor`boxes, conveyor.pool`free, conveyor.platforms`attached,
        conveyor.platforms`listeners
      modifies this`bombs, bombPool`free, bombs`attached, bombs`listeners
      modifies this`particleGroups, emitter.particlePool`free, AllParticles(particleGroups)`attached,
        AllParticles(particleGroups)`listeners, emitter.animationPool`free, Animations(particleGroups)`running,
        Animations(particleGroups)`listeners, Animations(particleGroups)`value
      ensures !world.active
      ensures conveyor.platforms == [] && conveyor.pool.free == old(conveyor.pool.free) + old(conveyor.platforms)
      ensures bombs == [] && bombPool.free == old(bombPool.free) + old(bombs)
      ensures particleGroups == []
      ensures emitter.particlePool.free == old(emitter.particlePool.free) + AllParticles(old(particleGroups))
      ensures emitter.animationPool.free == old(emitter.animationPool.free) + Animations(old(particleGroups))
      ensures forall k :: 0 <= k < |children| ==> !children[k].attached
      ensures forall k :: 0 <= k < |old(bombs)| ==> !old(bombs)[k].attached && old(bombs)[k].listeners == {}
      ensures Valid()
    {
      ghost var bs, free, gs, pfree := bombs, bombPool.free, particleGroups, emitter.particlePool.free;
      assert MadeBy(free + bs, bombPool) && MadeBy(pfree + AllParticles(gs), emitter.particlePool) by {
        MadeByJoin(free, bs, bombPool);
        AllParticlesMade(gs, emitter.particlePool);
        MadeByJoin(pfree, AllParticles(gs), emitter.particlePool);
      }
      assert Distinct(free + bs) by {
        DistinctConcat(free, bs);
      }
      Leave(children);
      bombs := [];
      assert Consistent();
    }

    /** `bombs.forEach(recycleBomb)`: every listed bomb is pushed to the pool in list
        order, losing its listeners and its parent. */
    method RecycleBombs()
      requires Configured()
      modifies bombPool`free, bombs`attached, bombs`listeners
      ensures bombPool.free == old(bombPool.free) + bombs
      ensures forall k :: 0 <= k < |bombs| ==> !bombs[k].attached && bombs[k].listeners == {}
    {
      var bs := bombs;
      ghost var free0 := bombPool.free;
      var i := 0;
      while i < |bs|
        invariant 0 <= i <= |bs| && bombPool.free == free0 + bs[..i]
        invariant forall k :: 0 <= k < i ==> !bs[k].attached && bs[k].listeners == {}
      {
        assert bs[..i + 1] == bs[..i] + [bs[i]];
        RecycleBomb(bombPool, bs[i]);
        i := i + 1;
      }
      assert bs[..i] == bs;
    }

    /** `particleGroups.forEach(g => g.animation.finish())`: each group, in insertion
        order, is recycled and deleted from the set. Deleting the visited element of a
        `Set` does not disturb the iteration, so every group is visited once and the set
        ends empty. */
    method FinishAllGroups()
      requires Configured() && GroupsFade() && emitter.animationPool.Uniform()
      modifies this`particleGroups, emitter.particlePool`free, AllParticles(particleGroups)`attached,
        AllParticles(particleGroups)`listeners, emitter.animationPool`free, Animations(particleGroups)`running,
        Animations(particleGroups)`listeners, Animations(particleGroups)`value
      ensures particleGroups == []
      ensures emitter.particlePool.free == old(emitter.particlePool.free) + AllParticles(old(particleGroups))
      ensures emitter.animationPool.free == old(emitter.animationPool.free) + Animations(old(particleGroups))
      ensures emitter.animationPool.Uniform()
      ensures forall p :: p in AllParticles(old(particleGroups)) ==> !p.attached
      ensures forall j, k :: 0 <= j < |old(particleGroups)| && 0 <= k < |old(particleGroups)[j].particles| ==>
        old(particleGroups)[j].particles[k].listeners == old(particleGroups[j].particles[k].listeners)
      ensures old(GroupsTracked()) ==> GroupsTracked()
    {
      var gs := particleGroups;
      ghost var free0 := emitter.particlePool.free;
      emitter.FinishAll(world, gs);
      if ParticlesApart(gs, free0) {
        AllLeave(gs, free0);
      }
      particleGroups := [];
    }
  }

  /** After `exit` as written, a bomb that was listed is listed and free at once. */
  lemma StaleBombListed(bombs: seq<Node>, free: seq<Node>)
    requires bombs != []
    ensures !Disjoint(bombs, free + bombs)
  {
    assert bombs[0] in bombs && (free + bombs)[|free|] == bombs[0];
  }

  /** The bomb bookkeeping of two visits to the scene, as `exit` is written: a bomb left
      listed by the first `exit` is recycled again by the second, so the pool's free
      list holds it twice. */
  lemma StaleBombRecycledTwice(free: seq<Node>, bombs: seq<Node>)
    requires bombs != []
    ensures !Distinct(free + bombs + bombs)
  {
    var s := free + bombs + bombs;
    DistinctPairs(s);
    assert s[|free|] == s[|free| + |bombs|];
  }
}
