/** Bombs (src/bomb.js): built fresh by `createBomb`, and recycled into a pool whose
    `clear` hook drops their listeners and detaches them. */
module Bombs {
  import opened Engine

  const BOMB_SIZE: real := 8.0
  const BOMB_SPEED: real := 5.0

  /** A bomb's bounds: the square around its regular octagon of radius `BOMB_SIZE`. */
  const BOMB_BOUNDS: real := 2.0 * BOMB_SIZE

  /** `bombPool`: no `initSize`, and a `clear` hook that empties the listener map and
      detaches the bomb from its parent. */
  predicate IsBombPool(pool: NodePool) {
    pool.hook == DropListenersAndDetach && pool.width == BOMB_BOUNDS && pool.height == BOMB_BOUNDS
  }

  method NewBombPool() returns (pool: NodePool)
    ensures fresh(pool) && IsBombPool(pool) && pool.free == []
  {
    pool := new NodePool(DropListenersAndDetach, BOMB_BOUNDS, BOMB_BOUNDS, 0);
  }

  /** `createBomb(x, y, dx, dy)`: `bombPool.create()` (never `pop`), so the bomb is a new
      node that is in no list and has no parent or listener; its offset is `(x, y)` and
      its velocity points along `(dx, dy)` with length `BOMB_SPEED`. The pool is left
      alone. */
  method CreateBomb(pool: NodePool, x: real, y: real, dx: real, dy: real) returns (b: Node)
    requires IsBombPool(pool)
    ensures fresh(b) && b.x == x && b.y == y && b.velocity == Aimed(dx, dy, BOMB_SPEED)
    ensures b.width == BOMB_BOUNDS && b.height == BOMB_BOUNDS
    ensures !b.attached && b.listeners == {} && b.maker == pool
  {
    b := pool.Create();
    b.x, b.y := x, y;
    b.velocity := Aimed(dx, dy, BOMB_SPEED);
  }

  /** `recycleBomb(bomb)`: `bombPool.push`, whose `clear` hook leaves the bomb without
      listeners and without a parent, appended to the free list. */
  method RecycleBomb(pool: NodePool, b: Node)
    requires IsBombPool(pool)
    modifies pool`free, b`attached, b`listeners
    ensures pool.free == old(pool.free) + [b]
    ensures !b.attached && b.listeners == {}
  {
    pool.Push(b);
  }
}
