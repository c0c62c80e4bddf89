/** The platform conveyor (src/platform.js, and its earlier copy in src/mainSceneWorld.js):
    platforms that scrolled off the left edge go back to the pool, and the ordered list
    is topped up to `PLATFORM_COUNT`, each new platform a bounded gap to the right of the
    previous one. */
module Platforms {
  import opened Lists
  import opened Engine
  import opened Culling

  const PLATFORM_COUNT: nat := 5
  const PLATFORM_MIN_Y: real := ENGINE_HEIGHT * 0.45
  const PLATFORM_MAX_Y: real := ENGINE_HEIGHT * 0.60
  const PLATFORM_MIN_WIDTH: int := 60
  const PLATFORM_MAX_WIDTH: int := 120
  const PLATFORM_MIN_HEIGHT: int := 80
  const PLATFORM_MAX_HEIGHT: int := 120
  const PLATFORM_MIN_GAP: int := 5
  const PLATFORM_MAX_GAP: int := 60
  const PLATFORM_COLORS: seq<Colour> := [0xF00, 0xFF0, 0x0F0, 0x0FF, 0x00F, 0xF0F]

  /** `c` is one of `PLATFORM_COLORS`. */
  predicate InPalette(c: Colour) {
    exists k :: 0 <= k < |PLATFORM_COLORS| && PLATFORM_COLORS[k] == c
  }

  /** The randomizer draws behind one new platform: the gap before it, then what the
      pool's `init` hook draws (width, height, y, stroke colour). */
  datatype Draw = Draw(gap: int, width: int, height: int, y: int, color: Colour)

  /** `integer(min, max)` and `choice(colors)` results, with inclusive bounds. */
  predicate ValidDraw(d: Draw) {
    && PLATFORM_MIN_GAP <= d.gap <= PLATFORM_MAX_GAP
    && PLATFORM_MIN_WIDTH <= d.width <= PLATFORM_MAX_WIDTH
    && PLATFORM_MIN_HEIGHT <= d.height <= PLATFORM_MAX_HEIGHT
    && PLATFORM_MIN_Y <= d.y as real <= PLATFORM_MAX_Y
    && InPalette(d.color)
  }

  predicate ValidDraws(ds: seq<Draw>) {
    forall i :: 0 <= i < |ds| ==> ValidDraw(ds[i])
  }

  /** What the conveyor sees of a platform: its offset, its size and its stroke colour. */
  datatype Box = Box(x: real, y: real, width: real, height: real, color: Colour)

  /** The box of a platform node. */
  function BoxOf(p: Node): Box
    reads p`x, p`y, p`width, p`height, p`stroke
  {
    Box(p.x, p.y, p.width, p.height, p.stroke)
  }

  /** The boxes of the platforms `ps`, in order. */
  function Boxes(ps: seq<Node>): (bs: seq<Box>)
    reads ps`x, ps`y, ps`width, ps`height, ps`stroke
    ensures |bs| == |ps|
    decreases |ps|
  {
    if ps == [] then [] else Boxes(ps[..|ps| - 1]) + [BoxOf(ps[|ps| - 1])]
  }

  /** `Boxes` is the pointwise box of each platform. */
  lemma {:induction false} BoxesAt(ps: seq<Node>)
    ensures forall k :: 0 <= k < |ps| ==> Boxes(ps)[k] == BoxOf(ps[k])
    decreases |ps|
  {
    if ps != [] {
      var t := ps[..|ps| - 1];
      BoxesAt(t);
      forall k | 0 <= k < |ps| ensures Boxes(ps)[k] == BoxOf(ps[k]) {
        if k < |t| { assert ps[k] == t[k]; }
      }
    }
  }

  /** The boxes of a suffix are the suffix of the boxes. */
  lemma BoxesDrop(ps: seq<Node>, n: nat)
    requires n <= |ps|
    ensures Boxes(ps[n..]) == Boxes(ps)[n..]
  {
    var a, b := Boxes(ps[n..]), Boxes(ps)[n..];
    BoxesAt(ps);
    BoxesAt(ps[n..]);
    forall k | 0 <= k < |a| ensures a[k] == b[k] {
      assert ps[n..][k] == ps[n + k];
    }
  }

  /** Every platform of `ps` has a parent. */
  predicate Attached(ps: seq<Node>)
    reads ps`attached
    decreases |ps|
  {
    ps == [] || (Attached(ps[..|ps| - 1]) && ps[|ps| - 1].attached)
  }

  /** `Attached` is the pointwise condition. */
  lemma {:induction false} AttachedAt(ps: seq<Node>)
    ensures Attached(ps) <==> forall k :: 0 <= k < |ps| ==> ps[k].attached
    decreases |ps|
  {
    if ps != [] {
      var t := ps[..|ps| - 1];
      AttachedAt(t);
      assert forall k :: 0 <= k < |t| ==> ps[k] == t[k];
    }
  }

  /** A platform's box as the `init` hook leaves it. */
  predicate Shaped(b: Box) {
    && PLATFORM_MIN_WIDTH as real <= b.width <= PLATFORM_MAX_WIDTH as real
    && PLATFORM_MIN_HEIGHT as real <= b.height <= PLATFORM_MAX_HEIGHT as real
    && PLATFORM_MIN_Y <= b.y <= PLATFORM_MAX_Y
    && InPalette(b.color)
  }

  /** The free space between two neighbouring platforms. */
  function GapBetween(a: Box, b: Box): real {
    b.x - (a.x + a.width)
  }

  /** The conveyor's layout: every platform shaped by `init`, and each one starting a
      gap in `[PLATFORM_MIN_GAP, PLATFORM_MAX_GAP]` after the right edge of the previous
      one. */
  predicate Laid(bs: seq<Box>)
    decreases |bs|
  {
    bs == [] ||
    (&& Laid(bs[..|bs| - 1])
     && Shaped(bs[|bs| - 1])
     && (|bs| == 1 ||
         PLATFORM_MIN_GAP as real <= GapBetween(bs[|bs| - 2], bs[|bs| - 1]) <= PLATFORM_MAX_GAP as real))
  }

  lemma {:induction false} LaidAt(bs: seq<Box>, i: int)
    requires Laid(bs) && 0 <= i < |bs|
    ensures Shaped(bs[i])
    ensures 0 < i ==> PLATFORM_MIN_GAP as real <= GapBetween(bs[i - 1], bs[i]) <= PLATFORM_MAX_GAP as real
    decreases |bs|
  {
    if i < |bs| - 1 {
      var t := bs[..|bs| - 1];
      LaidAt(t, i);
      assert t[i] == bs[i] && (0 < i ==> t[i - 1] == bs[i - 1]);
    }
  }

  /** Along a laid-out list every platform lies entirely to the left of every later
      one: left edges, and right edges, strictly increase and no two platforms overlap. */
  lemma {:induction false} LaidOrdered(bs: seq<Box>)
    requires Laid(bs)
    ensures forall i, j :: 0 <= i < j < |bs| ==> bs[i].x + bs[i].width < bs[j].x
    decreases |bs|
  {
    if |bs| > 1 {
      var t := bs[..|bs| - 1];
      LaidOrdered(t);
      var n := |bs| - 1;
      LaidAt(bs, n);
      LaidAt(bs, n - 1);
      forall i, j | 0 <= i < j < |bs| ensures bs[i].x + bs[i].width < bs[j].x {
        if j < n {
          assert bs[i] == t[i] && bs[j] == t[j];
        } else if i < n - 1 {
          assert bs[i] == t[i] && bs[n - 1] == t[n - 1];
        }
      }
    }
  }

  /** Dropping platforms from the front keeps the layout. */
  lemma {:induction false} LaidSuffix(bs: seq<Box>, k: nat)
    requires Laid(bs) && k <= |bs|
    ensures Laid(bs[k..])
    decreases |bs|
  {
    if |bs| > k {
      var t := bs[..|bs| - 1];
      LaidSuffix(t, k);
      assert t[k..] == bs[k..][..|bs[k..]| - 1];
    }
  }

  /** Right edges increase along a laid-out list, so once a platform is on screen, so is
      every later one. */
  lemma LaidOnScreen(bs: seq<Box>, m: seq<bool>, offsetX: real)
    requires Laid(bs) && |m| == |bs|
    requires forall i :: 0 <= i < |m| ==> (m[i] <==> offsetX + bs[i].x + bs[i].width >= 0.0)
    ensures forall i, j :: 0 <= i < j < |m| && m[i] ==> m[j]
  {
    LaidOrdered(bs);
    forall i, j | 0 <= i < j < |m| && m[i] ensures m[j] {
      LaidAt(bs, j);
    }
  }

  /** The platforms left after dropping a prefix of a conveyor list still form one,
      whose boxes are the matching suffix. */
  lemma KeptSuffix(ps: seq<Node>, bs: seq<Box>, dropped: seq<Node>, kept: seq<Node>, free: seq<Node>)
    requires ps == dropped + kept && Boxes(ps) == bs && Laid(bs) && |ps| <= PLATFORM_COUNT
    requires Distinct(kept) && Distinct(free) && Disjoint(kept, free) && Attached(kept)
    ensures Fleet(kept, bs[|dropped|..], free)
  {
    assert kept == ps[|dropped|..];
    BoxesDrop(ps, |dropped|);
    LaidSuffix(bs, |dropped|);
  }

  /** On a laid-out list the filter's verdicts never switch from keep to drop. */
  lemma OnScreenMonotone(ps: seq<Node>, bs: seq<Box>, offsetX: real, m: seq<bool>)
    requires Boxes(ps) == bs && Laid(bs) && m == Mask(RightEdgeOnScreen(offsetX), ps)
    ensures forall i, j :: 0 <= i < j < |m| && m[i] ==> m[j]
  {
    BoxesAt(ps);
    forall i | 0 <= i < |m| ensures m[i] <==> offsetX + bs[i].x + bs[i].width >= 0.0 {
      assert BoxOf(ps[i]) == bs[i];
    }
    LaidOnScreen(bs, m, offsetX);
  }

  /** Culling a laid-out list splits it into an off-screen prefix and an on-screen
      rest; handing the prefix to a free list it shares nothing with leaves two lists
      without repetitions and without common elements. */
  lemma OnScreenSplit(ps: seq<Node>, bs: seq<Box>, offsetX: real, m: seq<bool>, free: seq<Node>)
    requires Boxes(ps) == bs && Laid(bs) && m == Mask(RightEdgeOnScreen(offsetX), ps)
    requires Distinct(ps) && Distinct(free) && Disjoint(ps, free)
    ensures ps == Select(ps, m, false) + Select(ps, m, true)
    ensures Distinct(Select(ps, m, true)) && Distinct(free + Select(ps, m, false))
    ensures Disjoint(Select(ps, m, true), free + Select(ps, m, false))
    ensures forall k :: 0 <= k < |m| ==> (m[k] <==> k >= |Select(ps, m, false)|)
  {
    OnScreenMonotone(ps, bs, offsetX, m);
    PrefixSplit(ps, m, free);
    SelectPrefixVerdicts(ps, m);
  }

  /** The first platform of an empty list is centred under the character; its width,
      height, y and colour come from the `init` hook's draws. */
  function PlaceFirst(charX: real, charWidth: real, d: Draw): Box {
    Box(charX - (d.width as real - charWidth) / 2.0, d.y as real, d.width as real, d.height as real, d.color)
  }

  /** Any other platform starts `gap` after the right edge of the previous one. */
  function PlaceAfter(prev: Box, d: Draw): Box {
    Box(prev.x + prev.width + d.gap as real, d.y as real, d.width as real, d.height as real, d.color)
  }

  /** Where the refill loop puts the platform drawn with `d`, given the list so far. */
  function NextBox(bs: seq<Box>, charX: real, charWidth: real, d: Draw): Box {
    if bs == [] then PlaceFirst(charX, charWidth, d) else PlaceAfter(bs[|bs| - 1], d)
  }

  /** The boxes after appending one platform per draw. */
  function Extend(bs: seq<Box>, charX: real, charWidth: real, draws: seq<Draw>): (r: seq<Box>)
    ensures |r| == |bs| + |draws|
    ensures forall i :: 0 <= i < |bs| ==> r[i] == bs[i]
    decreases |draws|
  {
    if draws == [] then bs
    else
      var r := Extend(bs, charX, charWidth, draws[..|draws| - 1]);
      r + [NextBox(r, charX, charWidth, draws[|draws| - 1])]
  }

  /** Each appended platform is placed from its draw: centred under the character when
      the list was empty, otherwise right after the platform just before it. */
  lemma {:induction false} ExtendPlacement(bs: seq<Box>, charX: real, charWidth: real, draws: seq<Draw>, k: int)
    requires |bs| <= k < |bs| + |draws|
    ensures var r := Extend(bs, charX, charWidth, draws);
      r[k] == if k == 0 then PlaceFirst(charX, charWidth, draws[0]) else PlaceAfter(r[k - 1], draws[k - |bs|])
    decreases |draws|
  {
    var ds := draws[..|draws| - 1];
    var r0 := Extend(bs, charX, charWidth, ds);
    var r := Extend(bs, charX, charWidth, draws);
    assert r == r0 + [NextBox(r0, charX, charWidth, draws[|draws| - 1])];
    if k < |r| - 1 {
      ExtendPlacement(bs, charX, charWidth, ds, k);
      assert r[k] == r0[k] && draws[k - |bs|] == ds[k - |bs|];
      if k > 0 {
        assert r[k - 1] == r0[k - 1];
      } else {
        assert ds[0] == draws[0];
      }
    } else if k > 0 {
      assert r[k - 1] == r0[|r0| - 1];
    }
  }

  /** The first platform of an empty list is centred under the character. */
  lemma ExtendCentred(charX: real, charWidth: real, draws: seq<Draw>)
    requires draws != []
    ensures var r := Extend([], charX, charWidth, draws);
      r[0].x + r[0].width / 2.0 == charX + charWidth / 2.0
  {
    ExtendPlacement([], charX, charWidth, draws, 0);
  }

  /** Every later platform starts exactly its drawn gap after the previous one. */
  lemma ExtendGaps(bs: seq<Box>, charX: real, charWidth: real, draws: seq<Draw>)
    ensures var r := Extend(bs, charX, charWidth, draws);
      forall k :: |bs| <= k < |r| && k > 0 ==> GapBetween(r[k - 1], r[k]) == draws[k - |bs|].gap as real
  {
    var r := Extend(bs, charX, charWidth, draws);
    forall k | |bs| <= k < |r| && k > 0 ensures GapBetween(r[k - 1], r[k]) == draws[k - |bs|].gap as real {
      ExtendPlacement(bs, charX, charWidth, draws, k);
    }
  }

  /** Appending platforms from valid draws keeps the layout. */
  lemma {:induction false} ExtendLaid(bs: seq<Box>, charX: real, charWidth: real, draws: seq<Draw>)
    requires Laid(bs) && ValidDraws(draws)
    ensures Laid(Extend(bs, charX, charWidth, draws))
    decreases |draws|
  {
    if draws != [] {
      var ds := draws[..|draws| - 1];
      var r0 := Extend(bs, charX, charWidth, ds);
      var d := draws[|draws| - 1];
      var b := NextBox(r0, charX, charWidth, d);
      var r := r0 + [b];
      ExtendLaid(bs, charX, charWidth, ds);
      assert ValidDraw(d);
      assert Shaped(b);
      assert r[..|r0|] == r0;
      if r0 != [] {
        assert r[|r| - 2] == r0[|r0| - 1];
        assert GapBetween(r[|r| - 2], r[|r| - 1]) == d.gap as real;
      }
    }
  }

  /** `platformPool`'s `init` hook: size, height and stroke colour from the draws. */
  method InitPlatform(p: Node, d: Draw)
    modifies p`width, p`height, p`y, p`stroke
    ensures p.width == d.width as real && p.height == d.height as real
    ensures p.y == d.y as real && p.stroke == d.color
  {
    p.width, p.height := d.width as real, d.height as real;
    p.y := d.y as real;
    p.stroke := d.color;
  }

  /** The conveyor's invariant on its list `ps` of live platforms, whose boxes are `bs`,
      and the pool's free list: no platform twice or in both lists, at most
      `PLATFORM_COUNT` live ones, all attached to the world and laid out. */
  ghost predicate Fleet(ps: seq<Node>, bs: seq<Box>, free: seq<Node>)
    reads ps`x, ps`y, ps`width, ps`height, ps`stroke, ps`attached
  {
    && Distinct(ps) && Distinct(free) && Disjoint(ps, free)
    && |ps| <= PLATFORM_COUNT
    && Boxes(ps) == bs && Laid(bs) && Attached(ps)
  }

  /** `Fleet` taken apart: each platform is attached and its box is the listed one. */
  lemma FleetPointwise(ps: seq<Node>, bs: seq<Box>, free: seq<Node>)
    requires Fleet(ps, bs, free)
    ensures |bs| == |ps| && forall k :: 0 <= k < |ps| ==> BoxOf(ps[k]) == bs[k] && ps[k].attached
  {
    BoxesAt(ps);
    AttachedAt(ps);
  }

  /** `Fleet` put together again from the pointwise facts, after a change that left the
      platforms' boxes and parents alone. */
  lemma FleetFromPointwise(ps: seq<Node>, bs: seq<Box>, free: seq<Node>)
    requires Distinct(ps) && Distinct(free) && Disjoint(ps, free) && |ps| <= PLATFORM_COUNT && Laid(bs)
    requires |bs| == |ps| && forall k :: 0 <= k < |ps| ==> BoxOf(ps[k]) == bs[k] && ps[k].attached
    ensures Fleet(ps, bs, free)
  {
    BoxesAt(ps);
    AttachedAt(ps);
  }

  /** Culling a conveyor list drops a prefix of it, and the dropped platforms can join
      the free list without any platform being in two places. */
  lemma CullFleet(ps: seq<Node>, bs: seq<Box>, offsetX: real, m: seq<bool>, free: seq<Node>)
    requires Fleet(ps, bs, free) && m == Mask(RightEdgeOnScreen(offsetX), ps)
    ensures var dropped, kept := Select(ps, m, false), Select(ps, m, true);
      && ps == dropped + kept && |ps| == |dropped| + |kept|
      && Distinct(kept) && Distinct(free + dropped) && Disjoint(kept, free + dropped)
      && forall k :: 0 <= k < |m| ==> (m[k] <==> k >= |dropped|)
  {
    OnScreenSplit(ps, bs, offsetX, m, free);
  }

  /** The filter loop under a mask that drops exactly the first `n` platforms of an
      attached list: those `n` lose their parent, the others keep it, and no platform
      moves or changes colour. */
  method FilterPrefix(world: World, ps: seq<Node>, m: seq<bool>, pool: NodePool, detachFirst: bool,
                      ghost bs: seq<Box>, ghost n: nat)
    returns (kept: seq<Node>)
    requires Distinct(ps) && |m| == |ps| && Boxes(ps) == bs && (detachFirst || pool.hook != NoClear)
    requires forall k :: 0 <= k < |m| ==> (m[k] <==> k >= n)
    requires Attached(ps)
    modifies pool`free, ps`attached, ps`listeners
    ensures kept == Select(ps, m, true) && pool.free == old(pool.free) + Select(ps, m, false)
    ensures forall k :: 0 <= k < |ps| ==> ps[k].attached == (k >= n)
    ensures Boxes(ps) == bs
  {
    AttachedAt(ps);
    kept := Filter(world, ps, m, pool, detachFirst);
  }

  /** Once exactly the first `n` platforms of a list are detached, its suffix from `n`
      is attached. */
  lemma SuffixAttached(ps: seq<Node>, n: nat, kept: seq<Node>)
    requires n <= |ps| && kept == ps[n..]
    requires forall k :: 0 <= k < |ps| ==> ps[k].attached == (k >= n)
    ensures Attached(kept)
  {
    forall k | 0 <= k < |kept| ensures kept[k].attached {
      assert kept[k] == ps[n + k];
    }
    AttachedAt(kept);
  }

  /** `updatePlatforms`' filter on a list of platforms: because the list is laid out, the
      platforms it drops are a prefix, and what is left is still laid out. */
  method CullOffScreen(world: World, ps: seq<Node>, pool: NodePool, detachFirst: bool, m: seq<bool>,
                       ghost bs: seq<Box>)
    returns (kept: seq<Node>, ghost kb: seq<Box>, ghost n: nat)
    requires detachFirst || pool.hook != NoClear
    requires Fleet(ps, bs, pool.free) && m == Mask(RightEdgeOnScreen(world.offsetX), ps)
    modifies pool`free, ps`attached, ps`listeners
    ensures kept == Select(ps, m, true) && ps == Select(ps, m, false) + kept
    ensures pool.free == old(pool.free) + Select(ps, m, false)
    ensures n == |ps| - |kept| && kept == ps[n..] && kb == bs[n..] && Fleet(kept, kb, pool.free)
    ensures forall k :: 0 <= k < n ==> !ps[k].attached
    ensures MadeBy(ps, pool) && MadeBy(old(pool.free), pool) ==> MadeBy(kept, pool) && MadeBy(pool.free, pool)
  {
    CullFleet(ps, bs, world.offsetX, m, pool.free);
    if MadeBy(ps, pool) && MadeBy(pool.free, pool) {
      MadeBySplit(ps, Select(ps, m, false), Select(ps, m, true), pool.free, pool);
    }
    ghost var dropped := Select(ps, m, false);
    n := |dropped|;
    kept := FilterPrefix(world, ps, m, pool, detachFirst, bs, n);
    assert kept == ps[n..];
    SuffixAttached(ps, n, kept);
    KeptSuffix(ps, bs, dropped, kept, pool.free);
    kb := bs[n..];
  }

  /** Laying out one more draw appends the box `NextBox` places. */
  lemma ExtendStep(bs: seq<Box>, charX: real, charWidth: real, draws: seq<Draw>, i: int)
    requires 0 <= i < |draws|
    ensures var r := Extend(bs, charX, charWidth, draws[..i]);
      Extend(bs, charX, charWidth, draws[..i + 1]) == r + [NextBox(r, charX, charWidth, draws[i])]
  {
    assert draws[..i + 1][..i] == draws[..i];
  }

  /** One pass of the refill loop: `platformPool.pop()` with its `init` hook, placement
      next to the last platform (or under the character), and `appendChild`. The list
      grown by the new platform is still tracked by its boxes and attached. */
  method AddPlatform(world: World, character: Node, r: seq<Node>, pool: NodePool, d: Draw, ghost rb: seq<Box>)
    returns (p: Node)
    requires Disjoint(r, pool.free) && character !in pool.free
    requires Boxes(r) == rb && Attached(r)
    modifies pool`free, pool.free`x, pool.free`y, pool.free`width, pool.free`height, pool.free`stroke,
      pool.free`attached
    ensures old(pool.free) != [] ==>
      p == old(pool.free)[|old(pool.free)| - 1] && pool.free == old(pool.free)[..|old(pool.free)| - 1]
    ensures old(pool.free) == [] ==> fresh(p) && pool.free == [] && p.maker == pool
    ensures p !in r
    ensures Boxes(r + [p]) == rb + [NextBox(rb, old(character.x), old(character.width), d)]
    ensures Attached(r + [p])
    ensures character.x == old(character.x) && character.width == old(character.width)
  {
    ghost var free0 := pool.free;
    assert free0 != [] ==> free0[|free0| - 1] in free0;
    p := pool.Pop();
    assert p !in r;
    Place(world, character, r, p, d, rb);
    assert Boxes(r) == rb && Attached(r);
    assert (r + [p])[..|r|] == r;
  }

  /** The `init` hook, the placement and `appendChild` for a platform `p` that is not
      in the list `r`: `p` gets the box `NextBox` computes and a parent. */
  method Place(world: World, character: Node, r: seq<Node>, p: Node, d: Draw, ghost rb: seq<Box>)
    requires p !in r && p != character && Boxes(r) == rb
    modifies p`x, p`y, p`width, p`height, p`stroke, p`attached
    ensures BoxOf(p) == NextBox(rb, character.x, character.width, d) && p.attached
  {
    InitPlatform(p, d);
    if |r| == 0 {
      p.x := character.x - (p.width - character.width) / 2.0;
    } else {
      var last := r[|r| - 1];
      assert BoxOf(last) == rb[|rb| - 1];
      p.x := last.x + last.width + d.gap as real;
    }
    world.AppendChild(p);
  }

  /** One pass of the refill loop, with what it keeps of the loop's invariant: the list
      grows by the platform `AddPlatform` placed after the first `i` draws. */
  method RefillStep(world: World, character: Node, pool: NodePool, draws: seq<Draw>, i: nat, r: seq<Node>,
                    ghost ps: seq<Node>, ghost bs: seq<Box>, ghost rb: seq<Box>, ghost free0: seq<Node>)
    returns (r': seq<Node>, ghost rb': seq<Box>)
    requires i < |draws| && character !in pool.free && character !in r
    requires Popped(r, |ps|, i, free0, pool.free) && r[..|ps|] == ps
    requires rb == Extend(bs, character.x, character.width, draws[..i])
    requires Boxes(r) == rb && Attached(r)
    modifies pool`free, free0`x, free0`y, free0`width, free0`height, free0`stroke, free0`attached
    ensures Popped(r', |ps|, i + 1, free0, pool.free) && r'[..|ps|] == ps
    ensures character !in r' && character !in pool.free
    ensures character.x == old(character.x) && character.width == old(character.width)
    ensures rb' == Extend(bs, character.x, character.width, draws[..i + 1])
    ensures Boxes(r') == rb' && Attached(r')
    ensures MadeBy(r, pool) && MadeBy(old(pool.free), pool) ==> MadeBy(r', pool) && MadeBy(pool.free, pool)
  {
    ghost var free := pool.free;
    var p := AddPlatform(world, character, r, pool, draws[i], rb);
    if free != [] {
      NotInPrefix(free, |free| - 1, character);
    }
    PopStep(r, |ps|, i, free0, free, p);
    ExtendStep(bs, character.x, character.width, draws, i);
    r', rb' := r + [p], rb + [NextBox(rb, character.x, character.width, draws[i])];
  }

  /** `updatePlatforms`' refill loop: one platform per draw is popped from the pool,
      shaped by `init`, placed by `NextBox`, appended and attached to the world. */
  method Refill(world: World, character: Node, ps: seq<Node>, pool: NodePool, draws: seq<Draw>, ghost bs: seq<Box>,
                ghost pooled: seq<Node>)
    returns (r: seq<Node>, ghost rb: seq<Box>)
    requires |ps| + |draws| == PLATFORM_COUNT && ValidDraws(draws)
    requires Fleet(ps, bs, pool.free) && character !in pool.free && character !in ps
    requires |pool.free| <= |pooled| && forall k :: 0 <= k < |pool.free| ==> pool.free[k] == pooled[k]
    modifies pool`free, pooled`x, pooled`y, pooled`width, pooled`height, pooled`stroke, pooled`attached
    ensures |r| == PLATFORM_COUNT && r[..|ps|] == ps
    ensures rb == Extend(bs, old(character.x), old(character.width), draws)
    ensures Fleet(r, rb, pool.free)
    ensures Popped(r, |ps|, |draws|, old(pool.free), pool.free)
    ensures character !in r && character !in pool.free
    ensures MadeBy(ps, pool) && MadeBy(old(pool.free), pool) ==> MadeBy(r, pool) && MadeBy(pool.free, pool)
  {
    r, rb := RefillLoop(world, character, ps, pool, draws, bs, pooled);
    ExtendLaid(bs, old(character.x), old(character.width), draws);
  }

  /** The loop of `Refill`, with what its invariant gives at the end. */
  method RefillLoop(world: World, character: Node, ps: seq<Node>, pool: NodePool, draws: seq<Draw>, ghost bs: seq<Box>,
                    ghost pooled: seq<Node>)
    returns (r: seq<Node>, ghost rb: seq<Box>)
    requires Fleet(ps, bs, pool.free) && character !in pool.free && character !in ps
    requires |pool.free| <= |pooled| && forall k :: 0 <= k < |pool.free| ==> pool.free[k] == pooled[k]
    modifies pool`free, pooled`x, pooled`y, pooled`width, pooled`height, pooled`stroke, pooled`attached
    ensures Popped(r, |ps|, |draws|, old(pool.free), pool.free) && r[..|ps|] == ps
    ensures character !in r && character !in pool.free
    ensures character.x == old(character.x) && character.width == old(character.width)
    ensures rb == Extend(bs, character.x, character.width, draws)
    ensures Boxes(r) == rb && Attached(r)
    ensures MadeBy(ps, pool) && MadeBy(old(pool.free), pool) ==> MadeBy(r, pool) && MadeBy(pool.free, pool)
  {
    ghost var free0 := pool.free;
    ghost var made := MadeBy(ps, pool) && MadeBy(free0, pool);
    r, rb := ps, bs;
    var i := 0;
    PoppedStart(ps, free0);
    assert draws[..0] == [];
    while i < |draws|
      invariant 0 <= i <= |draws| && Popped(r, |ps|, i, free0, pool.free) && r[..|ps|] == ps
      invariant character !in r && character !in pool.free
      invariant character.x == old(character.x) && character.width == old(character.width)
      invariant rb == Extend(bs, character.x, character.width, draws[..i])
      invariant Boxes(r) == rb && Attached(r)
      invariant made ==> MadeBy(r, pool) && MadeBy(pool.free, pool)
    {
      r, rb := RefillStep(world, character, pool, draws, i, r, ps, bs, rb, free0);
      i := i + 1;
    }
    assert draws[..i] == draws;
  }

  /** `updatePlatforms(world)` on the list `ps`: the cull, then the refill from the first
      `PLATFORM_COUNT - |kept|` randomizer draws. Whatever the list held before, it ends
      with exactly `PLATFORM_COUNT` platforms: the survivors `kept` first, in their
      order, then one new platform per draw of `ds`, placed by `Extend`. */
  method CullAndRefill(world: World, character: Node, ps: seq<Node>, pool: NodePool, detachFirst: bool,
                       draws: seq<Draw>, ghost bs: seq<Box>)
    returns (r: seq<Node>, ghost rb: seq<Box>, kept: seq<Node>, ds: seq<Draw>, ghost n: nat)
    requires detachFirst || pool.hook != NoClear
    requires Fleet(ps, bs, pool.free) && |draws| == PLATFORM_COUNT && ValidDraws(draws)
    requires character !in ps && character !in pool.free
    modifies pool`free, ps`attached, ps`listeners
    modifies pool.free`x, pool.free`y, pool.free`width, pool.free`height, pool.free`stroke, pool.free`attached
    modifies ps`x, ps`y, ps`width, ps`height, ps`stroke
    ensures kept == old(Kept(RightEdgeOnScreen(world.offsetX), ps)) && ds == draws[..PLATFORM_COUNT - |kept|]
    ensures Fleet(r, rb, pool.free) && |r| == PLATFORM_COUNT && r[..|kept|] == kept
    ensures n == |ps| - |kept| && rb == Extend(bs[n..], old(character.x), old(character.width), ds)
    ensures Popped(r, |kept|, |ds|, old(pool.free) + ps[..n], pool.free)
    ensures character !in r && character !in pool.free
    ensures MadeBy(ps, pool) && MadeBy(old(pool.free), pool) ==> MadeBy(r, pool) && MadeBy(pool.free, pool)
  {
    var m := Mask(RightEdgeOnScreen(world.offsetX), ps);
    ghost var kb;
    kept, kb, n := CullOffScreen(world, ps, pool, detachFirst, m, bs);
    NotInSuffix(ps, n, character);
    r, rb, ds := RefillAfterCull(world, character, kept, pool, draws, kb, old(pool.free), ps);
  }

  /** The refill half of `updatePlatforms`, once the cull of the list `ps` has pushed
      its dropped prefix onto the free list `free0`: the first `PLATFORM_COUNT - |kept|`
      draws fill the list up again. */
  method RefillAfterCull(world: World, character: Node, kept: seq<Node>, pool: NodePool, draws: seq<Draw>,
                         ghost kb: seq<Box>, ghost free0: seq<Node>, ghost ps: seq<Node>)
    returns (r: seq<Node>, ghost rb: seq<Box>, ds: seq<Draw>)
    requires |kept| <= |ps| && pool.free == free0 + ps[..|ps| - |kept|]
    requires character !in free0 && character !in ps && character !in kept
    requires Fleet(kept, kb, pool.free) && |draws| == PLATFORM_COUNT && ValidDraws(draws)
    modifies pool`free, free0`x, free0`y, free0`width, free0`height, free0`stroke, free0`attached
    modifies ps`x, ps`y, ps`width, ps`height, ps`stroke, ps`attached
    ensures ds == draws[..PLATFORM_COUNT - |kept|]
    ensures Fleet(r, rb, pool.free) && |r| == PLATFORM_COUNT && r[..|kept|] == kept
    ensures rb == Extend(kb, old(character.x), old(character.width), ds)
    ensures Popped(r, |kept|, |ds|, old(pool.free), pool.free)
    ensures character !in r && character !in pool.free
    ensures MadeBy(kept, pool) && MadeBy(old(pool.free), pool) ==> MadeBy(r, pool) && MadeBy(pool.free, pool)
  {
    ds := draws[..PLATFORM_COUNT - |kept|];
    PrefixMembers(ps, |ps| - |kept|);
    r, rb := Refill(world, character, kept, pool, ds, kb, pool.free);
  }

  /** Which copy of `updatePlatforms`: the latest (src/platform.js), whose pool's
      `clear` hook detaches a platform, or the earlier one (src/mainSceneWorld.js), whose
      pool has no `clear` hook and whose filter calls `removeChild` itself. */
  datatype Version = Latest | Earlier

  class Conveyor {
    /** The live platforms, left to right. */
    var platforms: seq<Node>
    /** Their boxes, left to right. */
    ghost var boxes: seq<Box>
    const pool: NodePool
    const detachFirst: bool

    /** Every platform, live or free, was made by the pool's `create`. */
    ghost predicate Owned()
      reads this`platforms, pool`free
    {
      MadeBy(platforms, pool) && MadeBy(pool.free, pool)
    }

    /** A dropped platform always loses its parent: the filter detaches it itself, or the
        pool's `clear` hook does. */
    predicate Detaches() {
      detachFirst || pool.hook != NoClear
    }

    /** The module state at load time: no platforms, and a pool of `PLATFORM_COUNT`
        platforms created eagerly. */
    constructor (version: Version)
      ensures Detaches() && Fleet(platforms, boxes, pool.free) && fresh(pool) && Owned()
      ensures forall n :: n in pool.free ==> fresh(n)
      ensures platforms == [] && |pool.free| == PLATFORM_COUNT
      ensures detachFirst == (version == Earlier)
      ensures pool.hook == if version == Latest then Detach else NoClear
    {
      platforms, boxes := [], [];
      detachFirst := version == Earlier;
      pool := new NodePool(if version == Latest then Detach else NoClear, 0.0, 0.0, PLATFORM_COUNT);
    }

    /** `updatePlatforms(world)` on the module's list, as `CullAndRefill` states it. */
    method UpdatePlatforms(world: World, character: Node, draws: seq<Draw>)
      returns (ghost kept: seq<Node>, ghost ds: seq<Draw>, ghost n: nat)
      requires Detaches() && Fleet(platforms, boxes, pool.free) && |draws| == PLATFORM_COUNT && ValidDraws(draws)
      requires character !in platforms && character !in pool.free
      modifies this`platforms, this`boxes, pool`free, platforms`attached, platforms`listeners
      modifies pool.free`x, pool.free`y, pool.free`width, pool.free`height, pool.free`stroke, pool.free`attached
      modifies platforms`x, platforms`y, platforms`width, platforms`height, platforms`stroke
      ensures kept == old(Kept(RightEdgeOnScreen(world.offsetX), platforms)) && ds == draws[..PLATFORM_COUNT - |kept|]
      ensures Fleet(platforms, boxes, pool.free)
      ensures |platforms| == PLATFORM_COUNT
      ensures platforms[..|kept|] == kept
      ensures n == |old(platforms)| - |kept| && boxes == Extend(old(boxes)[n..], old(character.x), old(character.width), ds)
      ensures Popped(platforms, |kept|, |ds|, old(pool.free) + old(platforms)[..n], pool.free)
      ensures character !in platforms && character !in pool.free && unchanged(character)
      ensures old(Owned()) ==> Owned()
    {
      var r;
      ghost var rb;
      r, rb, kept, ds, n := CullAndRefill(world, character, platforms, pool, detachFirst, draws, boxes);
      Install(r, rb);
    }

    /** The module's list becomes `r`, whose boxes are `rb`. */
    method Install(r: seq<Node>, ghost rb: seq<Box>)
      requires Fleet(r, rb, pool.free)
      modifies this`platforms, this`boxes
      ensures platforms == r && boxes == rb && Fleet(platforms, boxes, pool.free)
    {
      platforms, boxes := r, rb;
    }

    /** `exit`'s teardown of the list (src/mainScene.js): every platform goes back to
        the pool, in list order, and the list is emptied. A platform keeps its parent
        only when the pool has no `clear` hook. */
    method Flush()
      requires Distinct(platforms) && Distinct(pool.free) && Disjoint(platforms, pool.free)
      modifies this`platforms, this`boxes, pool`free, platforms`attached, platforms`listeners
      ensures pool.free == old(pool.free) + old(platforms)
      ensures platforms == [] && Fleet(platforms, boxes, pool.free)
      ensures forall k :: 0 <= k < |old(platforms)| ==>
        old(platforms)[k].attached == (old(platforms[k].attached) && pool.hook == NoClear)
      ensures old(Owned()) ==> Owned()
    {
      ghost var free0 := pool.free;
      var ps := platforms;
      ghost var att0 := seq(|ps|, k requires 0 <= k < |ps| reads ps => ps[k].attached);
      var i := 0;
      while i < |ps|
        invariant 0 <= i <= |ps| && pool.free == free0 + ps[..i]
        invariant forall k :: 0 <= k < |ps| ==> ps[k].attached == if k < i then att0[k] && pool.hook == NoClear else att0[k]
      {
        DistinctAt(ps, i);
        assert ps[..i + 1] == ps[..i] + [ps[i]];
        pool.Push(ps[i]);
        i := i + 1;
      }
      assert ps[..i] == ps;
      DistinctConcat(free0, ps);
      platforms, boxes := [], [];
    }
  }
}
