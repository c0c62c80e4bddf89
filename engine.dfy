/** The part of the canvas/physics engine (POM, COM, HE) and of the pool library (HP.Pool)
    that the game relies on. None of that code is part of this model: the classes below
    carry only the state the game reads and writes, and their methods state the contract
    the game's hooks and calls assume. */
module Engine {
  import opened Lists

  /** Canvas size the engine is built with (src/common.js). */
  const ENGINE_WIDTH: real := 320.0
  const ENGINE_HEIGHT: real := 640.0

  /** The engine events the game listens to. */
  datatype Event = Collision | Update | Finish

  /** A velocity. `Polar` is used where the source rotates a unit vector by an angle and
      scales it; the direction is kept as a fraction of a full turn (no trigonometry).
      `Aimed` is the vector `(dx, dy)` rescaled to the length `speed`, which keeps its
      direction (no square root). */
  datatype Velocity =
    | Cartesian(vx: real, vy: real)
    | Polar(turn: real, speed: real)
    | Aimed(dx: real, dy: real, speed: real)

  /** A CSS colour in the short form `#RGB`, kept as its 12-bit value (`#F0F` is 0xF0F). */
  type Colour = int

  /** A scene-graph node: a physics body, or a text node. */
  class Node {
    var x: real
    var y: real
    var width: real
    var height: real
    var velocity: Velocity
    var opacity: real
    var stroke: Colour
    /** The node has a parent (it is a child of a world). */
    var attached: bool
    /** The events some listener is registered for. */
    var listeners: set<Event>
    /** The pool whose `create` made the node, or null for a node made directly. */
    ghost const maker: NodePool?

    constructor (w: real, h: real, ghost maker: NodePool?)
      ensures x == 0.0 && y == 0.0 && width == w && height == h
      ensures velocity == Cartesian(0.0, 0.0) && opacity == 1.0 && stroke == 0x000
      ensures !attached && listeners == {} && this.maker == maker
    {
      x, y, width, height := 0.0, 0.0, w, h;
      velocity, opacity, stroke := Cartesian(0.0, 0.0), 1.0, 0x000;
      attached, listeners := false, {};
      this.maker := maker;
    }

    /** The centre of the node's box. */
    function CentreX(): real
      reads this`x, this`width
    {
      x + width / 2.0
    }

    function CentreY(): real
      reads this`y, this`height
    {
      y + height / 2.0
    }

    /** `on(e, ...)` / `once(e, ...)`: a listener for `e` is registered. */
    method On(e: Event)
      modifies this`listeners
      ensures listeners == old(listeners) + {e}
    {
      listeners := listeners + {e};
    }
  }

  /** Every node of `s` was made by `pool`'s `create`. Nodes of different pools, or made
      directly, are therefore never the same node. */
  ghost predicate MadeBy(s: seq<Node>, pool: NodePool?) {
    forall k :: 0 <= k < |s| ==> s[k].maker == pool
  }

  /** Splitting a list of nodes made by `pool` at some point and appending the front part
      to another such list keeps every node made by `pool`. */
  lemma MadeBySplit(ps: seq<Node>, front: seq<Node>, back: seq<Node>, free: seq<Node>, pool: NodePool?)
    requires ps == front + back && MadeBy(ps, pool) && MadeBy(free, pool)
    ensures MadeBy(back, pool) && MadeBy(free + front, pool)
  {
    assert forall k :: 0 <= k < |back| ==> back[k] == ps[|front| + k];
    assert forall k :: 0 <= k < |front| ==> front[k] == ps[k];
    forall k | 0 <= k < |free + front| ensures (free + front)[k].maker == pool {
      if k >= |free| {
        assert (free + front)[k] == front[k - |free|];
      }
    }
  }

  /** Two lists of nodes made by `pool`, one after the other. */
  lemma MadeByJoin(a: seq<Node>, b: seq<Node>, pool: NodePool?)
    requires MadeBy(a, pool) && MadeBy(b, pool)
    ensures MadeBy(a + b, pool)
  {
    forall k | 0 <= k < |a + b| ensures (a + b)[k].maker == pool {
      if k >= |a| {
        assert (a + b)[k] == b[k - |a|];
      }
    }
  }

  /** Nodes popped from a free list made by `pool`, or made by its `create`, and the part
      of the free list that is left, are all made by `pool`. */
  lemma PoppedMade(ps: seq<Node>, free0: seq<Node>, free: seq<Node>, pool: NodePool?)
    requires MadeBy(free0, pool) && |free| <= |free0| && free == free0[..|free|]
    requires forall k :: 0 <= k < |ps| ==> ps[k] in free0 || ps[k].maker == pool
    ensures MadeBy(ps, pool) && MadeBy(free, pool)
  {
    forall k | 0 <= k < |ps| ensures ps[k].maker == pool {
      if ps[k] in free0 {
        var i :| 0 <= i < |free0| && free0[i] == ps[k];
      }
    }
  }

  /** Nodes made by different makers are never the same node. */
  lemma MadeApart(a: seq<Node>, b: seq<Node>, p: NodePool?, q: NodePool?)
    requires MadeBy(a, p) && MadeBy(b, q) && p != q
    ensures Disjoint(a, b)
  {
    forall x | x in a ensures x !in b {
      var i :| 0 <= i < |a| && a[i] == x;
    }
  }

  /** A list whose nodes all come from a list of nodes made by `pool` is made by `pool`. */
  lemma MadeBySubset(a: seq<Node>, b: seq<Node>, pool: NodePool?)
    requires MadeBy(b, pool) && forall x :: x in a ==> x in b
    ensures MadeBy(a, pool)
  {
    forall k | 0 <= k < |a| ensures a[k].maker == pool {
      assert a[k] in a;
    }
  }

  /** Right edge of a node's bounds on screen, once its world is offset by `offsetX`. */
  function Right(n: Node, offsetX: real): real
    reads n`x, n`width
  {
    offsetX + n.x + n.width
  }

  /** Bottom edge of a node's bounds (worlds are never offset vertically). */
  function Bottom(n: Node): real
    reads n`y, n`height
  {
    n.y + n.height
  }

  /** A world node: runs the physics loop while active, and is scrolled by `offsetX`. */
  class World {
    var active: bool
    var offsetX: real

    constructor ()
      ensures !active && offsetX == 0.0
    {
      active, offsetX := false, 0.0;
    }

    /** `appendChild` / `insertBefore`: the node gets this world as parent. */
    method AppendChild(n: Node)
      modifies n`attached
      ensures n.attached
    {
      n.attached := true;
    }

    /** `removeChild`: the node loses its parent. */
    method RemoveChild(n: Node)
      modifies n`attached
      ensures !n.attached
    {
      n.attached := false;
    }

    /** `appendChild` of each node of `ns` in turn (a `forEach`). */
    method AppendAll(ns: seq<Node>)
      modifies ns`attached
      ensures forall k :: 0 <= k < |ns| ==> ns[k].attached
    {
      var i := 0;
      while i < |ns|
        invariant 0 <= i <= |ns|
        invariant forall k :: 0 <= k < i ==> ns[k].attached
      {
        AppendChild(ns[i]);
        i := i + 1;
      }
    }

    /** `removeChild` of each node of `ns` in turn, over a list that the removals do not
        change (a copy of `childNodes`). */
    method RemoveAll(ns: seq<Node>)
      modifies ns`attached
      ensures forall k :: 0 <= k < |ns| ==> !ns[k].attached
    {
      var i := 0;
      while i < |ns|
        invariant 0 <= i <= |ns|
        invariant forall k :: 0 <= k < i ==> !ns[k].attached
      {
        RemoveChild(ns[i]);
        i := i + 1;
      }
    }

    method Activate()
      modifies this`active
      ensures active
    {
      active := true;
    }

    method Deactivate()
      modifies this`active
      ensures !active
    {
      active := false;
    }
  }

  /** A timed value running from `from` to `to`, with update/finish events. */
  class Animation {
    const from: real
    const to: real
    var running: bool
    var value: real
    var listeners: set<Event>

    constructor (from: real, to: real)
      ensures this.from == from && this.to == to
      ensures !running && value == from && listeners == {}
    {
      this.from, this.to := from, to;
      running, value, listeners := false, from, {};
    }

    /** `on(e, ...)` / `once(e, ...)`: a listener for `e` is registered. */
    method On(e: Event)
      modifies this`listeners
      ensures listeners == old(listeners) + {e}
    {
      listeners := listeners + {e};
    }

    method Start()
      modifies this`running, this`value
      ensures running && value == from
    {
      running, value := true, from;
    }

    /** One tick of the animation: the eased progress is `v`. */
    method Tick(v: real)
      requires 0.0 <= v <= 1.0
      modifies this`value
      ensures value == from + (to - from) * v
    {
      value := from + (to - from) * v;
    }

    /** `finish(t)` jumps to the end value and stops; the finish listeners it fires
        are modelled by the methods of the modules that registered them. */
    method Finish()
      modifies this`running, this`value
      ensures !running && value == to
    {
      running, value := false, to;
    }
  }

  /** What a pool's `clear` hook does to a node before it goes back to the free list. */
  datatype ClearHook = NoClear | Detach | DropListenersAndDetach

  /** An `HP.Pool` of nodes. Assumed contract: `pop` takes the most recently pushed free
      node, or runs `create` when there is none; `push` runs the `clear` hook and then
      appends the node to the free list. The `init` hooks are run by the callers. */
  class NodePool {
    var free: seq<Node>
    const hook: ClearHook
    /** Size of the vertices `create` gives a node. */
    const width: real
    const height: real

    /** `new HP.Pool({initSize, create, clear})`: `initSize` nodes are created eagerly. */
    constructor (hook: ClearHook, w: real, h: real, initSize: nat)
      ensures this.hook == hook && width == w && height == h
      ensures |free| == initSize && Distinct(free) && MadeBy(free, this)
      ensures forall n :: n in free ==> fresh(n) && !n.attached && n.listeners == {}
    {
      this.hook, width, height, free := hook, w, h, [];
      new;
      var nodes: seq<Node> := [];
      while |nodes| < initSize
        invariant |nodes| <= initSize && Distinct(nodes) && MadeBy(nodes, this)
        invariant forall n :: n in nodes ==> fresh(n) && !n.attached && n.listeners == {}
      {
        var n := new Node(w, h, this);
        assert (nodes + [n])[..|nodes|] == nodes;
        nodes := nodes + [n];
      }
      free := nodes;
    }

    /** `create()`: a new node, bypassing the free list. */
    method Create() returns (n: Node)
      ensures fresh(n) && n.width == width && n.height == height && n.maker == this
      ensures n.velocity == Cartesian(0.0, 0.0) && n.opacity == 1.0
      ensures !n.attached && n.listeners == {}
    {
      n := new Node(width, height, this);
    }

    method Pop() returns (n: Node)
      modifies this`free
      ensures old(free) == [] ==> fresh(n) && free == [] && n.width == width && n.height == height && n.maker == this
      ensures old(free) == [] ==> n.velocity == Cartesian(0.0, 0.0) && n.opacity == 1.0
      ensures old(free) == [] ==> !n.attached && n.listeners == {}
      ensures old(free) != [] ==> n == old(free)[|old(free)| - 1] && free == old(free)[..|old(free)| - 1]
    {
      if free == [] {
        n := Create();
      } else {
        n := free[|free| - 1];
        free := free[..|free| - 1];
      }
    }

    method Push(n: Node)
      modifies this`free, n`attached, n`listeners
      ensures free == old(free) + [n]
      ensures n.attached == (old(n.attached) && hook == NoClear)
      ensures n.listeners == if hook == DropListenersAndDetach then {} else old(n.listeners)
    {
      if hook != NoClear {
        if hook == DropListenersAndDetach {
          n.listeners := {};
        }
        n.attached := false;
      }
      free := free + [n];
    }
  }

  /** An `HP.Pool` of animations, with the same assumed contract as `NodePool`. When
      `stopsOnClear` holds, the `clear` hook stops the animation and drops its listeners. */
  class AnimationPool {
    var free: seq<Animation>
    const stopsOnClear: bool
    const from: real
    const to: real

    /** Every free animation is one this pool's `create` makes: same start and end. */
    predicate Uniform()
      reads this`free
    {
      forall k :: 0 <= k < |free| ==> free[k].from == from && free[k].to == to
    }

    constructor (stopsOnClear: bool, from: real, to: real, initSize: nat)
      ensures this.stopsOnClear == stopsOnClear && this.from == from && this.to == to
      ensures |free| == initSize && Distinct(free) && Uniform()
      ensures forall a :: a in free ==> fresh(a) && !a.running && a.listeners == {}
    {
      var anims: seq<Animation> := [];
      while |anims| < initSize
        invariant |anims| <= initSize && Distinct(anims)
        invariant forall k :: 0 <= k < |anims| ==> anims[k].from == from && anims[k].to == to
        invariant forall a :: a in anims ==> fresh(a) && !a.running && a.listeners == {}
      {
        var a := new Animation(from, to);
        assert (anims + [a])[..|anims|] == anims;
        anims := anims + [a];
      }
      this.stopsOnClear, this.from, this.to, free := stopsOnClear, from, to, anims;
    }

    method Pop() returns (a: Animation)
      requires Uniform()
      modifies this`free
      ensures Uniform() && a.from == from && a.to == to
      ensures old(free) == [] ==> fresh(a) && free == []
      ensures old(free) == [] ==> !a.running && a.listeners == {}
      ensures old(free) != [] ==> a == old(free)[|old(free)| - 1] && free == old(free)[..|old(free)| - 1]
    {
      if free == [] {
        a := new Animation(from, to);
      } else {
        a := free[|free| - 1];
        free := free[..|free| - 1];
      }
    }

    method Push(a: Animation)
      requires Uniform() && a.from == from && a.to == to
      modifies this`free, a`running, a`listeners
      ensures Uniform() && free == old(free) + [a]
      ensures a.running == (old(a.running) && !stopsOnClear)
      ensures a.listeners == if stopsOnClear then {} else old(a.listeners)
    {
      if stopsOnClear {
        a.running := false;
        a.listeners := {};
      }
      free := free + [a];
    }
  }
}
