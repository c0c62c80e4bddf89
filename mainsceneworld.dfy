/** The main scene's world in its earlier, separate form (src/mainSceneWorld.js): the
    platform conveyor whose pool has no `clear` hook, the camera that follows the
    character, and the bomb list culled below the screen. */
module MainSceneWorld {
  import opened Lists
  import opened Engine
  import opened Culling
  import opened Platforms

  const CHARACTER_SIZE: real := 40.0
  const CHARACTER_INIT_X: real := ENGINE_WIDTH / 2.0

  /** `updateCamera`'s world offset: the character's centre lands in the middle of the
      screen. */
  function CameraOffset(charX: real, charWidth: real): (offsetX: real)
    ensures offsetX + charX + charWidth / 2.0 == ENGINE_WIDTH / 2.0
  {
    ENGINE_WIDTH / 2.0 - charX - charWidth / 2.0
  }

  /** With the camera on the character, the platform the conveyor centres under the
      character (the first one of an empty list) is centred on screen too. */
  lemma CentredOnScreen(charX: real, charWidth: real, draws: seq<Draw>)
    requires draws != []
    ensures var b := Extend([], charX, charWidth, draws)[0];
      CameraOffset(charX, charWidth) + b.x + b.width / 2.0 == ENGINE_WIDTH / 2.0
  {
    ExtendCentred(charX, charWidth, draws);
  }

  /** The module's state: its world, its character, its conveyor and its bomb list. */
  class SceneWorld {
    const world: World
    const character: Node
    const conveyor: Conveyor
    var bombs: seq<Node>

    constructor ()
      ensures fresh(world) && fresh(character) && fresh(conveyor) && fresh(conveyor.pool)
      ensures character.width == CHARACTER_SIZE && character.height == CHARACTER_SIZE
      ensures conveyor.platforms == [] && conveyor.detachFirst && conveyor.pool.hook == NoClear
      ensures conveyor.Detaches() && Fleet(conveyor.platforms, conveyor.boxes, conveyor.pool.free)
      ensures character !in conveyor.pool.free && bombs == []
    {
      world := new World();
      character := new Node(CHARACTER_SIZE, CHARACTER_SIZE, null);
      conveyor := new Conveyor(Earlier);
      bombs := [];
    }

    /** `updateCamera()`. */
    method UpdateCamera()
      modifies world`offsetX
      ensures world.offsetX == CameraOffset(character.x, character.width)
    {
      world.offsetX := ENGINE_WIDTH / 2.0 - character.x - character.width / 2.0;
    }

    /** `beforeUpdate`: the platforms first (culled against the camera of the previous
        frame), then the camera, which follows the character wherever the platforms
        are. */
    method BeforeUpdate(draws: seq<Draw>) returns (ghost kept: seq<Node>, ghost ds: seq<Draw>, ghost n: nat)
      requires conveyor.Detaches() && Fleet(conveyor.platforms, conveyor.boxes, conveyor.pool.free)
      requires |draws| == PLATFORM_COUNT && ValidDraws(draws)
      requires character !in conveyor.platforms && character !in conveyor.pool.free
      modifies world`offsetX, conveyor`platforms, conveyor`boxes, conveyor.pool`free
      modifies conveyor.platforms`attached, conveyor.platforms`listeners
      modifies conveyor.pool.free`x, conveyor.pool.free`y, conveyor.pool.free`width, conveyor.pool.free`height,
        conveyor.pool.free`stroke, conveyor.pool.free`attached
      modifies conveyor.platforms`x, conveyor.platforms`y, conveyor.platforms`width, conveyor.platforms`height,
        conveyor.platforms`stroke
      ensures kept == old(Kept(RightEdgeOnScreen(world.offsetX), conveyor.platforms))
      ensures ds == draws[..PLATFORM_COUNT - |kept|]
      ensures Fleet(conveyor.platforms, conveyor.boxes, conveyor.pool.free)
      ensures |conveyor.platforms| == PLATFORM_COUNT && conveyor.platforms[..|kept|] == kept
      ensures n == |old(conveyor.platforms)| - |kept|
      ensures conveyor.boxes == Extend(old(conveyor.boxes)[n..], old(character.x), old(character.width), ds)
      ensures character !in conveyor.platforms && character !in conveyor.pool.free
      ensures world.offsetX == CameraOffset(character.x, character.width)
    {
      kept, ds, n := conveyor.UpdatePlatforms(world, character, draws);
      UpdateCamera();
    }

    /** `afterUpdate`: the bombs whose top is still within the screen's height stay, in
        order; the others are only detached from the world (no pool takes them). */
    method AfterUpdate()
      requires Distinct(bombs)
      modifies this`bombs, bombs`attached
      ensures bombs == old(Kept(TopInView, bombs))
      ensures forall k :: 0 <= k < |old(bombs)| ==>
        old(bombs)[k].attached == (old(Keeps(TopInView, bombs[k])) && old(bombs[k].attached))
    {
      bombs := CullDetach(world, bombs, TopInView);
    }
  }
}
