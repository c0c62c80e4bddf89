/** Coins (src/coin.js): the list of live coins, culled like the platforms; a one-shot
    collision handler that collects a coin for `BONUS_SCORE` points; and the floating,
    fading "+10" text its bonus animation drives. */
module Coins {
  import opened Lists
  import opened Engine
  import opened Culling

  const COIN_RADIUS: real := 15.0
  const BONUS_SCORE: int := 10
  const BONUS_FLOAT_DISTANCE: real := 50.0

  /** The bonus text's offset y at progress `v` of its 0 -> 1 animation: it rises from
      the coin's `y` by at most `BONUS_FLOAT_DISTANCE`. */
  function BonusY(y: real, v: real): (r: real)
    requires 0.0 <= v <= 1.0
    ensures y - BONUS_FLOAT_DISTANCE <= r <= y
    ensures v == 0.0 ==> r == y
    ensures v == 1.0 ==> r == y - BONUS_FLOAT_DISTANCE
  {
    y - v * BONUS_FLOAT_DISTANCE
  }

  /** The bonus text's opacity at progress `v`: it fades from fully opaque to invisible. */
  function BonusOpacity(v: real): (o: real)
    requires 0.0 <= v <= 1.0
    ensures 0.0 <= o <= 1.0
    ensures v == 0.0 ==> o == 1.0
    ensures v == 1.0 ==> o == 0.0
  {
    1.0 - v
  }

  /** As the animation progresses the text only moves up and only fades. */
  lemma BonusMonotone(y: real, v: real, w: real)
    requires 0.0 <= v <= w <= 1.0
    ensures BonusY(y, w) <= BonusY(y, v) && BonusOpacity(w) <= BonusOpacity(v)
  {
    assert (w - v) * BONUS_FLOAT_DISTANCE >= 0.0;
  }

  /** An `update` event of a bonus animation (from 0 to 1) at eased progress `v`: the text
      is at `BonusY(y, v)` with opacity `BonusOpacity(v)`, where `y` is the coin's `y`. */
  method BonusUpdate(text: Node, anim: Animation, y: real, v: real)
    requires 0.0 <= v <= 1.0 && anim.from == 0.0 && anim.to == 1.0
    modifies anim`value, text`y, text`opacity
    ensures anim.value == v
    ensures text.y == BonusY(y, anim.value) && text.opacity == BonusOpacity(anim.value)
  {
    anim.Tick(v);
    text.y := y - anim.value * BONUS_FLOAT_DISTANCE;
    text.opacity := 1.0 - anim.value;
  }

  /** The module's coin list, bonus lists and pools. */
  class CoinState {
    var coins: seq<Node>
    var bonusTexts: seq<Node>
    var bonusAnimations: seq<Animation>
    /** `clear` empties the listener map and detaches the coin. */
    const coinPool: NodePool
    /** `init` makes the text opaque; `clear` detaches it. */
    const bonusTextPool: NodePool
    /** Animations from 0 to 1; `clear` stops the animation and empties its listeners. */
    const bonusAnimationPool: AnimationPool

    predicate Configured() {
      && coinPool.hook == DropListenersAndDetach && bonusTextPool.hook == Detach
      && bonusAnimationPool.stopsOnClear && bonusAnimationPool.from == 0.0 && bonusAnimationPool.to == 1.0
    }

    /** A coin is live (listed) or recycled (in the pool), never both, and never twice. */
    ghost predicate CoinsTracked()
      reads this, coinPool
    {
      Distinct(coins) && Distinct(coinPool.free) && Disjoint(coins, coinPool.free)
    }

    constructor ()
      ensures Configured() && coins == [] && bonusTexts == [] && bonusAnimations == []
      ensures fresh(coinPool) && fresh(bonusTextPool) && fresh(bonusAnimationPool)
      ensures coinPool.free == [] && bonusTextPool.free == [] && bonusAnimationPool.free == []
      ensures bonusAnimationPool.Uniform()
    {
      coins, bonusTexts, bonusAnimations := [], [], [];
      coinPool := new NodePool(DropListenersAndDetach, 2.0 * COIN_RADIUS, 2.0 * COIN_RADIUS, 0);
      bonusTextPool := new NodePool(Detach, 0.0, 0.0, 0);
      bonusAnimationPool := new AnimationPool(true, 0.0, 1.0, 0);
    }

    /** `updateCoins()`: the coins whose right edge is on screen stay, in order; every
        other coin is pushed to `coinPool`, whose `clear` hook detaches it and drops its
        listeners. */
    method UpdateCoins(world: World)
      requires Configured() && Distinct(coins)
      modifies this`coins, coinPool`free, coins`attached, coins`listeners
      ensures coins == old(Kept(RightEdgeOnScreen(world.offsetX), coins))
      ensures coinPool.free == old(coinPool.free + Culled(RightEdgeOnScreen(world.offsetX), coins))
      ensures forall k :: 0 <= k < |old(coins)| ==>
        if old(Keeps(RightEdgeOnScreen(world.offsetX), coins[k]))
        then old(coins)[k].attached == old(coins[k].attached) && old(coins)[k].listeners == old(coins[k].listeners)
        else !old(coins)[k].attached && old(coins)[k].listeners == {}
      ensures old(CoinsTracked()) ==> CoinsTracked()
    {
      ghost var cs, free := coins, coinPool.free;
      var rule := RightEdgeOnScreen(world.offsetX);
      if Distinct(free) && Disjoint(cs, free) {
        CullTracked(rule, cs, free);
      }
      coins := Cull(world, coins, rule, coinPool, false);
    }

    /** `spawnCoin(x, y, world)`: a coin popped from `coinPool` at `(x - COIN_RADIUS, y)`,
        with a one-shot collision listener, appended to `coins` and attached to the
        world. */
    method SpawnCoin(world: World, x: real, y: real) returns (c: Node)
      modifies this`coins, coinPool`free, coinPool.free`x, coinPool.free`y, coinPool.free`listeners,
        coinPool.free`attached
      ensures old(coinPool.free) != [] ==>
        c == old(coinPool.free)[|old(coinPool.free)| - 1] && coinPool.free == old(coinPool.free)[..|old(coinPool.free)| - 1]
      ensures old(coinPool.free) == [] ==> fresh(c) && coinPool.free == []
      ensures coins == old(coins) + [c]
      ensures c.x == x - COIN_RADIUS && c.y == y && c.attached && Collision in c.listeners
      ensures old(CoinsTracked()) ==> CoinsTracked()
    {
      ghost var cs, free := coins, coinPool.free;
      assert free != [] ==> free[|free| - 1] in free;
      c := coinPool.Pop();
      c.x, c.y := x - COIN_RADIUS, y;
      c.On(Collision);
      coins := coins + [c];
      world.AppendChild(c);
      if Distinct(cs) && Distinct(free) && Disjoint(cs, free) {
        if free != [] {
          MoveLast(cs, free);
        } else {
          AppendNew(cs, c);
        }
      }
    }

    /** The collision handler of a coin spawned at `(x, y)`, when the character touches
        it: the coin leaves `coins` if it is still listed (the list is unchanged
        otherwise), goes back to `coinPool`, and the score grows by `BONUS_SCORE`. A bonus
        text popped from its pool appears at `(x, y)`, opaque and attached, and a bonus
        animation popped from its pool is started with an `update` listener
        (`BonusUpdate`) and a one-shot `finish` listener (`BonusFinish`). */
    method Collect(world: World, c: Node, x: real, y: real, score: int)
      returns (score': int, text: Node, anim: Animation)
      requires Configured() && bonusAnimationPool.Uniform() && c !in bonusTextPool.free
      modifies this`coins, coinPool`free, c`attached, c`listeners
      modifies this`bonusTexts, bonusTextPool`free, bonusTextPool.free`x, bonusTextPool.free`y,
        bonusTextPool.free`opacity, bonusTextPool.free`attached
      modifies this`bonusAnimations, bonusAnimationPool`free, bonusAnimationPool.free`listeners,
        bonusAnimationPool.free`running, bonusAnimationPool.free`value
      ensures coins == Without(old(coins), c)
      ensures coinPool.free == old(coinPool.free) + [c] && !c.attached && c.listeners == {}
      ensures score' == score + BONUS_SCORE
      ensures old(bonusTextPool.free) != [] ==>
        text == old(bonusTextPool.free)[|old(bonusTextPool.free)| - 1] &&
        bonusTextPool.free == old(bonusTextPool.free)[..|old(bonusTextPool.free)| - 1]
      ensures old(bonusTextPool.free) == [] ==> fresh(text) && bonusTextPool.free == []
      ensures text.x == x && text.y == y && text.opacity == 1.0 && text.attached
      ensures bonusTexts == old(bonusTexts) + [text]
      ensures old(bonusAnimationPool.free) != [] ==>
        anim == old(bonusAnimationPool.free)[|old(bonusAnimationPool.free)| - 1] &&
        bonusAnimationPool.free == old(bonusAnimationPool.free)[..|old(bonusAnimationPool.free)| - 1]
      ensures old(bonusAnimationPool.free) == [] ==> fresh(anim) && bonusAnimationPool.free == []
      ensures bonusAnimationPool.Uniform() && anim.from == 0.0 && anim.to == 1.0
      ensures anim.running && anim.value == 0.0 && Update in anim.listeners && Finish in anim.listeners
      ensures bonusAnimations == old(bonusAnimations) + [anim]
      ensures old(CoinsTracked()) && c !in old(coinPool.free) ==> CoinsTracked()
    {
      ReturnCoin(c);
      score' := score + BONUS_SCORE;
      text := PopText(world, x, y);
      anim := StartBonus();
    }

    /** The coin leaves `coins` if it is still listed and goes back to `coinPool`,
        whose `clear` hook detaches it and drops its listeners. */
    method ReturnCoin(c: Node)
      requires Configured()
      modifies this`coins, coinPool`free, c`attached, c`listeners
      ensures coins == Without(old(coins), c)
      ensures coinPool.free == old(coinPool.free) + [c] && !c.attached && c.listeners == {}
      ensures old(CoinsTracked()) && c !in old(coinPool.free) ==> CoinsTracked()
    {
      ghost var cs, free := coins, coinPool.free;
      Unlist(c);
      coinPool.Push(c);
      if Distinct(cs) && Distinct(free) && Disjoint(cs, free) && c !in free {
        ReturnedApart(cs, free, c);
      }
    }

    /** `coins.indexOf(coin)` and, when it is listed, the removal of that entry. */
    method Unlist(c: Node)
      modifies this`coins
      ensures coins == Without(old(coins), c)
    {
      var i := IndexOf(coins, c);
      if i >= 0 {
        coins := coins[..i] + coins[i + 1..];
      }
    }

    /** The bonus text of a collection: popped, made opaque by `init`, put at `(x, y)`,
        attached before the character and listed. */
    method PopText(world: World, x: real, y: real) returns (text: Node)
      modifies this`bonusTexts, bonusTextPool`free, bonusTextPool.free`x, bonusTextPool.free`y,
        bonusTextPool.free`opacity, bonusTextPool.free`attached
      ensures old(bonusTextPool.free) != [] ==>
        text == old(bonusTextPool.free)[|old(bonusTextPool.free)| - 1] &&
        bonusTextPool.free == old(bonusTextPool.free)[..|old(bonusTextPool.free)| - 1]
      ensures old(bonusTextPool.free) == [] ==> fresh(text) && bonusTextPool.free == []
      ensures text.x == x && text.y == y && text.opacity == 1.0 && text.attached
      ensures bonusTexts == old(bonusTexts) + [text]
    {
      ghost var free := bonusTextPool.free;
      assert free != [] ==> free[|free| - 1] in free;
      text := bonusTextPool.Pop();
      text.opacity := 1.0;
      text.x, text.y := x, y;
      world.AppendChild(text);
      bonusTexts := bonusTexts + [text];
    }

    /** The bonus animation of a collection: popped, given its listeners, started and
        listed. */
    method StartBonus() returns (anim: Animation)
      requires Configured() && bonusAnimationPool.Uniform()
      modifies this`bonusAnimations, bonusAnimationPool`free, bonusAnimationPool.free`listeners,
        bonusAnimationPool.free`running, bonusAnimationPool.free`value
      ensures old(bonusAnimationPool.free) != [] ==>
        anim == old(bonusAnimationPool.free)[|old(bonusAnimationPool.free)| - 1] &&
        bonusAnimationPool.free == old(bonusAnimationPool.free)[..|old(bonusAnimationPool.free)| - 1]
      ensures old(bonusAnimationPool.free) == [] ==> fresh(anim) && bonusAnimationPool.free == []
      ensures bonusAnimationPool.Uniform() && anim.from == 0.0 && anim.to == 1.0
      ensures anim.running && anim.value == 0.0 && Update in anim.listeners && Finish in anim.listeners
      ensures bonusAnimations == old(bonusAnimations) + [anim]
    {
      ghost var free := bonusAnimationPool.free;
      assert free != [] ==> free[|free| - 1] in free;
      anim := bonusAnimationPool.Pop();
      anim.On(Update);
      anim.On(Finish);
      anim.Start();
      bonusAnimations := bonusAnimations + [anim];
    }

    /** The bonus animation finishes: its one-shot listener pushes the text back to its
        pool (which detaches it) and the animation back to its own (which stops it and
        drops its listeners). The bonus lists keep both entries. */
    method BonusFinish(text: Node, anim: Animation)
      requires Configured() && bonusAnimationPool.Uniform() && anim.from == 0.0 && anim.to == 1.0
      modifies anim`running, anim`value, anim`listeners, bonusTextPool`free, text`attached, text`listeners,
        bonusAnimationPool`free
      ensures anim.value == 1.0 && !anim.running && anim.listeners == {}
      ensures bonusTextPool.free == old(bonusTextPool.free) + [text] && !text.attached
      ensures bonusAnimationPool.free == old(bonusAnimationPool.free) + [anim] && bonusAnimationPool.Uniform()
    {
      anim.Finish();
      bonusTextPool.Push(text);
      bonusAnimationPool.Push(anim);
    }
  }
}
