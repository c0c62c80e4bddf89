# Geo Rush, modelled in Dafny

Geo Rush is a small browser game. A square character stands on a conveyor of randomly
sized platforms. A click throws a bomb from the character towards the pointer. When the
bomb hits a platform it bursts into a ring of particles and pushes the character away.
The score is how far right the character has got. The game ends once the character
falls below the screen. Behind the menu, bombs fly in from the sides and particle bursts
go off. The best score survives reloads in `localStorage`.

This project models the game's core and proves properties of it:

- the platform conveyor (`Platforms`): the off-screen cull and the refill loop of
  `updatePlatforms`, in its latest form (src/platform.js) and its earlier copies
  (src/mainSceneWorld.js, src/mainScene.js);
- the generic "filter the live list, send the dropped entities away" cull (`Culling`),
  which platforms, coins and bombs all use;
- bombs, particle groups and coins with their object pools (`Bombs`, `Particles`,
  `Coins`);
- the main scene and its earlier world module (`MainScene`, `MainSceneWorld`): camera,
  score, clicks, the bomb collision handler, game over, `enter` and `exit`;
- the menu scene (`MenuScene`): the two capped spawners, the cull, `enter` and `exit`;
- the high-score store (`Storage`): the `parseInt` load and the `toFixed` write.

The engine and pool library that the game calls (a physics/canvas engine and `HP.Pool`)
are not part of this model. The `Engine` module holds only the state the game reads and
writes. Its methods carry the contracts the game relies on:

- `pop` takes the last free object, or creates one and runs the `init` hook;
- `push` runs the `clear` hook and appends the object to the free list;
- `appendChild` and `removeChild` set or clear a node's parent;
- `activate` and `deactivate` start and stop a world;
- an animation's `finish` stops it at its end value.

State that the game changes in place lives in classes:

| class | holds |
|---|---|
| `Conveyor` | the platform list and its pool |
| `Scene` | the main scene |
| `SceneWorld` | the earlier main-scene world |
| `Menu` | the menu scene |
| `Emitter` | the particle pools |
| `CoinState` | the coins, bonus texts and bonus animations |
| `HighScore` | the best score and the store |

Their methods state the new state in full. The invariants kept across calls are these:

- `Fleet`: the platforms are distinct and attached, laid out left to right with bounded
  gaps, and never free at the same time;
- `BombsTracked`, `CoinsTracked` and `GroupsTracked`: each bomb, coin or particle is live
  or free, never both, and never twice;
- `Valid`, the main scene's invariant: `Fleet`, the tracking of bombs and particle groups,
  each group fading from 1 to 0, and every node made by its own pool, which keeps bombs,
  particles, the character and the platforms apart. Every method that changes the scene
  keeps it; `exit` as written keeps all of it except the bomb tracking (`Consistent`).

Randomness, timers and the physics step are parameters. A `Draw` is a randomizer result
within its range, and a collision handler is a method that the caller invokes.

## Model

| member | source | states |
|---|---|---|
| Platforms.InitPlatform | src/platform.js:44-68 | The pool's `init` hook gives a platform the drawn width, height, y and stroke colour. |
| Platforms.Extend | src/platform.js:98-114 | The refill appends exactly one box per draw and leaves the boxes already laid in front of them as they were. |
| Platforms.ExtendPlacement | src/platform.js:104-111 | Each platform the refill appends is placed by `NextBox`: by `PlaceFirst`, centred under the character, when the list was empty. Otherwise by `PlaceAfter`, starting its drawn gap after the right edge of the platform before it. |
| Platforms.ExtendCentred | src/platform.js:108-110 | The first platform of an empty list (`PlaceFirst`) has its centre on the character's centre. |
| Platforms.ExtendGaps | src/platform.js:99-107 | Every appended platform after the first (`PlaceAfter`) starts exactly its drawn gap after its predecessor and takes its drawn width, height and y. |
| Platforms.ExtendLaid | src/platform.js:98-114 | Appending platforms from in-range draws keeps the layout. Each platform is shaped within the `init` ranges and each gap lies in [5, 60]. |
| Platforms.LaidOrdered | src/platform.js:98-114 | In a laid-out list every platform lies wholly left of every later one, so platforms never overlap. |
| Platforms.LaidOnScreen | src/platform.js:89-96 | In a laid-out list, once a platform's right edge is on screen so is every later one's. The cull therefore drops a prefix. |
| Platforms.LaidSuffix | src/platform.js:89-96 | What the cull leaves is still laid out. |
| Platforms.CullFleet | src/platform.js:89-96 | The dropped platforms are exactly a prefix of the list. They can join the free list without any platform being in two places. |
| Platforms.CullOffScreen | src/platform.js:89-96 | The platforms whose right edge is on screen stay, in order, and they are a suffix of the list. The others are pushed to the pool in list order and lose their parent. The survivors keep the `Fleet` invariant. |
| Platforms.FilterPrefix | src/platform.js:89-96 | When the verdicts drop exactly the first n platforms, the filter keeps the rest in order and pushes the first n in order. Exactly those n lose their parent, and no platform moves or changes size or colour. |
| Platforms.AddPlatform | src/platform.js:103-113 | One refill pass pops the last free platform, or a new one when none is free. The pop is given the box `NextBox` computes and a parent. |
| Platforms.Place | src/platform.js:104-113 | A popped platform is shaped by `init`, placed after the last platform or under the character, and attached. |
| Platforms.RefillStep | src/platform.js:103-113 | One pass of the loop appends the platform popped for the next draw. The list's boxes become `Extend` of one more draw, every platform stays attached, and the character is neither popped nor moved. |
| Platforms.RefillLoop | src/platform.js:98-114 | The loop appends one platform per draw, popped from the free list in pop order and placed as `Extend` says. The character is never popped. |
| Platforms.Refill | src/platform.js:98-114 | The refill tops the list up to `PLATFORM_COUNT`. It keeps the survivors first and pops the rest from the free list. The result still satisfies `Fleet`. |
| Platforms.CullAndRefill | src/platform.js:87-116 | The full update. The survivors come first, followed by `PLATFORM_COUNT - kept` new platforms placed by `Extend`. Those are popped from the free list, which already holds the dropped prefix. |
| Platforms.RefillAfterCull | src/platform.js:98-116 | After the cull has pushed the dropped prefix, the refill uses the first `PLATFORM_COUNT - kept` draws. The list ends with `PLATFORM_COUNT` platforms, the survivors first and the rest popped in order and laid by `Extend`, and `Fleet` holds. |
| Platforms.Conveyor.constructor | src/platform.js:28-74 | The pool starts with `PLATFORM_COUNT` eagerly created platforms and the list starts empty. Only the latest copy's pool has a detaching `clear` hook. |
| Platforms.Conveyor.UpdatePlatforms | src/platform.js:87-116 | The module's list after `updatePlatforms` has exactly `PLATFORM_COUNT` platforms: the survivors, then new ones from the pool. Its boxes extend the survivors' boxes and the free-list change is stated. The character is untouched. |
| Platforms.Conveyor.Flush | src/mainScene.js:345-348 | Every platform is pushed back in list order and the list is emptied. A platform keeps its parent only when the pool has no `clear` hook. |
| Culling.Filter | src/platform.js:89-96 | The filter keeps the entities its verdicts keep, in order. The dropped ones are appended to the free list in order, and their parent and listeners change as the pool's hook says. |
| Culling.Cull | src/coin.js:84-93 | A cull by a rule keeps exactly the entities the rule keeps, in order. The rest go to the pool in order. |
| Culling.FilterDetach | src/mainScene.js:243-250 | A detach-only filter keeps the kept entities, in order. An entity stays attached exactly when it is kept and was attached. |
| Culling.CullDetach | src/mainScene.js:243-250 | The bomb cull by a rule keeps the entities the rule keeps and detaches the others. No pool is involved. |
| Culling.Dispose | src/mainScene.js:123-126 | A dropped entity is pushed to the pool, optionally after `removeChild`. Its parent and listeners end as the hooks say. |
| Culling.CullMembership | src/coin.js:85-92 | Every kept entity satisfies the rule and every culled one fails it. Every entity of the list is kept or culled. |
| Culling.CullSplits | src/coin.js:85-92 | The kept and culled entities of a duplicate-free list are duplicate-free and disjoint, and together as many as the list. |
| Culling.CullTracked | src/menuScene.js:150-158 | After a cull that recycles, every entity is still live or free, never both, and never twice. |
| Bombs.NewBombPool | src/bomb.js:12-32 | The bomb pool starts empty. Its `clear` hook drops listeners and detaches. |
| Bombs.CreateBomb | src/bomb.js:45-51 | A bomb is a fresh node from `create()`, never taken from the free list. It sits at (x, y) with velocity along (dx, dy) and length `BOMB_SPEED`. |
| Bombs.RecycleBomb | src/bomb.js:56-58 | A recycled bomb is appended to the free list, without listeners and without a parent. |
| Particles.BuildDirections | src/particles.js:31-37 | The direction table has `PARTICLE_GROUP_SIZE` unit vectors, the i-th rotated by i/20 of a turn. |
| Particles.TurnsSpread | src/particles.js:31-37 | The table's directions are distinct and go once around the circle. |
| Particles.Fade | src/particles.js:123-127 | An `update` tick sets every particle's opacity to the animation's value, which lies in [0, 1] and falls as progress rises. |
| Particles.Emitter.constructor | src/particles.js:39-63 | Both pools start with `PARTICLE_PREPARE_COUNT` distinct objects. The animations run from 1 to 0. |
| Particles.Emitter.EmitStep | src/particles.js:82-92 | One pass pops the last free particle, or a new one. It places the particle at the spawn point with direction k and its drawn speed. |
| Particles.Emitter.CreateParticles | src/particles.js:79-94 | A burst is `PARTICLE_GROUP_SIZE` particles popped in order from the free list, then new ones. All start at the spawn point on their own direction and speed. |
| Particles.Emitter.CreateGroup | src/particles.js:118-140 | A group is those particles plus a popped 1-to-0 animation, started at value 1, with `update` and `finish` listeners. |
| Particles.Emitter.RecycleGroup | src/particles.js:99-110 | Recycling detaches every particle and pushes the particles in order, then the animation. |
| Particles.Emitter.FinishGroup | src/particles.js:129-131 | Finishing a group's animation stops it at 0, and its `finish` listener recycles the group. |
| Particles.Emitter.FinishAll | src/mainScene.js:354-356 | Finishing every group of a list recycles them all in order. The free lists grow by all their particles and all their animations. |
| Particles.Emitter.FinishStep | src/mainScene.js:354-356 | One pass of that loop finishes the next group: the free lists grow by its particles and its animation, which ends stopped, and its particles end detached. No particle's listeners change. |
| Particles.GroupJoins | src/particles.js:118-140 | A new group built from popped or new particles joins the list with every particle in at most one place. |
| Particles.GroupLeaves | src/particles.js:99-110 | A listed group that is recycled and unlisted leaves every particle in at most one place. |
| Particles.FadesWithout | src/mainScene.js:195-198 | Deleting a group from the set leaves every other group's animation running from 1 to 0. |
| Particles.AllLeave | src/mainScene.js:354-356 | Recycling every listed group and emptying the list keeps the free list duplicate-free. |
| Coins.BonusY | src/coin.js:135 | The bonus text rises from the coin's y by at most `BONUS_FLOAT_DISTANCE`, from 0 at the start to the full distance at the end. |
| Coins.BonusOpacity | src/coin.js:136 | The bonus text fades from opacity 1 to 0. |
| Coins.BonusMonotone | src/coin.js:133-137 | As the animation progresses the text only moves up and only fades. |
| Coins.BonusUpdate | src/coin.js:133-137 | An `update` event puts the text at `BonusY` with opacity `BonusOpacity` of the animation's value. |
| Coins.CoinState.constructor | src/coin.js:16-103 | All three pools and all three lists start empty. The coin pool's `clear` drops listeners and detaches, the text pool's detaches, and the animation pool's stops the animation. |
| Coins.CoinState.UpdateCoins | src/coin.js:84-93 | The coins whose right edge is on screen stay, in order, untouched. The others go to the pool in order, detached and without listeners. The tracking invariant is kept. |
| Coins.CoinState.SpawnCoin | src/coin.js:110-150 | The coin is the last free one, or a new one. It is placed at (x - radius, y), listens for one collision, and is listed and attached. The tracking invariant is kept. |
| Coins.CoinState.Collect | src/coin.js:116-145 | A collision unlists the coin if listed and recycles it, and adds `BONUS_SCORE`. It pops, places and lists a bonus text, and pops, starts and lists a 0-to-1 animation with `update` and `finish` listeners. |
| Coins.CoinState.ReturnCoin | src/coin.js:118-123 | The coin leaves the list if it was there and goes to the pool, detached and without listeners. The invariant is kept for a coin that was not already free. |
| Coins.CoinState.Unlist | src/coin.js:118-121 | The guarded `removeElements` removes the coin's first occurrence, or nothing when the coin is not listed. |
| Coins.CoinState.PopText | src/coin.js:127-130 | The bonus text is the last free one, or a new one. It is opaque at (x, y), attached and listed. |
| Coins.CoinState.StartBonus | src/coin.js:132-143 | The bonus animation is the last free one, or a new one. It runs from 0 to 1, started at 0, with `update` and `finish` listeners, and is listed. |
| Coins.CoinState.BonusFinish | src/coin.js:138-141 | The end of the animation returns the text, detached, and the animation, stopped at 1 without listeners, to their pools. |
| MainSceneWorld.CameraOffset | src/mainSceneWorld.js:171-174 | The camera offset puts the character's centre in the middle of the screen. |
| MainSceneWorld.CentredOnScreen | src/mainSceneWorld.js:131-134 | With the camera on the character, the first platform of an empty list is centred on screen. |
| MainSceneWorld.SceneWorld.constructor | src/mainSceneWorld.js:30-107 | The earlier module starts with a 40x40 character, an empty conveyor whose pool has no `clear` hook, and no bombs. |
| MainSceneWorld.SceneWorld.UpdateCamera | src/mainSceneWorld.js:171-174 | The world offset becomes `CameraOffset` of the character. |
| MainSceneWorld.SceneWorld.BeforeUpdate | src/mainSceneWorld.js:152-155 | The platforms are culled against the previous frame's camera and refilled to `PLATFORM_COUNT`, keeping `Fleet`. Then the camera centres the character. |
| MainSceneWorld.SceneWorld.AfterUpdate | src/mainSceneWorld.js:157-166 | The bombs whose top is within the screen's height stay, in order. The others are only detached. |
| MainScene.Progress | src/mainScene.js:252-255 | The progress score is the floor of the scaled distance from the start. |
| MainScene.ProgressSteps | src/mainScene.js:252-255 | Progress is 0 at the start, grows by one every 20 units to the right, and never falls further right. |
| MainScene.NextScore | src/mainScene.js:252-255 | The new score is the larger of the old score and the progress. |
| MainScene.ScoreIsBestProgress | src/mainScene.js:241-263 | Over any run of frames the score is the best progress seen, or the starting score when that is higher. It never decreases. |
| MainScene.Pushed | src/mainScene.js:204-212 | The velocity after the handler's `addVector` is again a plain vector. Its direction is stated by `PushedAway` and its size by `PushedSize`. |
| MainScene.PushedAway | src/mainScene.js:204-212 | The push points from the bomb to the character: each component has the sign of (dx, dy), the push is parallel to (dx, dy), and the velocity is unchanged exactly when the centres coincide. |
| MainScene.PushedSize | src/mainScene.js:204-211 | With the handler's factor (`ImpactFactor`), the push's size s satisfies s⁴ · (dx² + dy²) = 9⁴: the push is `BOMB_IMPACT_COEFFICIENT` over the fourth root of the squared distance. |
| MainScene.Scene.constructor | src/mainScene.js:37-116 | The scene starts with a 40x40 character, an empty conveyor whose pool has no `clear` hook, no bombs, no groups and score 0. The scene's invariant `Valid` holds. |
| MainScene.Scene.Separated | src/mainScene.js:38-116 | While every node is made by its own pool, no bomb, particle or the character is a platform, live or free. Neither a bomb nor the character is a free particle, and the character is no bomb. |
| MainScene.Scene.CharacterApart | src/mainScene.js:38-53 | The character is built directly, not by a pool, so it is no platform, no bomb and no free particle. |
| MainScene.Scene.UpdateCamera | src/mainScene.js:268-271 | The world offset centres the character on screen, and the scene's invariant `Valid` still holds. |
| MainScene.Scene.BeforeUpdate | src/mainScene.js:233-239 | The platform update (cull, then refill to `PLATFORM_COUNT` by `Extend`) keeps `Valid`, which includes `Fleet`. Then the camera centres the character. |
| MainScene.Scene.AdvancePlatforms | src/mainScene.js:233-237 | `updatePlatforms` from the scene: the survivors, then new platforms laid by `Extend`, keeping `Fleet`. The character, the bombs, the groups and the other pools are untouched. |
| MainScene.Scene.AfterUpdate | src/mainScene.js:241-263 | Bombs below the screen are detached and dropped. The score becomes `NextScore`. Once the character's bottom reaches the screen's bottom, the world stops and game over shows. `Valid` is kept. |
| MainScene.Scene.CullBombs | src/mainScene.js:243-250 | The bombs whose top is within the screen stay, in order. The rest are detached. The bomb tracking invariant and `Fleet` are kept. |
| MainScene.Scene.DetachFarBombs | src/mainScene.js:243-250 | The filter's work: the kept bombs stay listed in order and exactly the others lose their parent. No platform's parent changes and the bomb pool is untouched. |
| MainScene.Scene.Judge | src/mainScene.js:252-262 | The score becomes `NextScore`. The world stops and game over shows exactly when the character's bottom reaches the screen's bottom (or they already had). `Valid` is kept. |
| MainScene.Scene.Back | src/mainScene.js:303-308 | Back leaves for the menu exactly when the world has stopped. |
| MainScene.Scene.Click | src/mainScene.js:360-368 | A bomb is thrown exactly when the world is active and the throttle admits the click. Otherwise the bomb list is unchanged. `Valid` is kept. |
| MainScene.Scene.HandleClick | src/mainScene.js:156-219 | The new bomb is centred on the character. It is aimed from the character's centre on screen at the click, plus the character's velocity. It is listed and attached with a collision listener, and `Valid` is kept. |
| MainScene.Scene.Throw | src/mainScene.js:156-219 | A fresh bomb is appended to the list, placed and aimed as `Thrown` says, attached and with a collision listener. The bomb tracking and `Fleet` are kept. |
| MainScene.Scene.NewBomb | src/mainScene.js:158-176 | `createBomb`, the offset shift and the `collision` listener: a fresh bomb from the bomb pool, placed and aimed as `Thrown` says, not yet listed. The platforms are untouched. |
| MainScene.Scene.ListBomb | src/mainScene.js:216-217 | `bombs.push` and `insertBefore`: the bomb is appended and attached, the tracking invariant is kept and no platform changes. |
| MainScene.Scene.BombHit | src/mainScene.js:176-214 | A bomb no longer listed changes nothing. A listed bomb is unlisted and detached, bursts a group of attached particles from its centre, and pushes the character by `Pushed` of the centres' difference. `Valid` is kept. |
| MainScene.Scene.Collide | src/mainScene.js:182-212 | Once the bomb is found, the handler unlists and detaches it, adds the burst to the set, and pushes the character. The tracking invariants and `Fleet` are kept. |
| MainScene.Scene.Strike | src/mainScene.js:182-212 | The same work, stated for a list of nodes that are neither the bomb, a free particle nor the character: each of them keeps its box and its parent. |
| MainScene.Scene.Unlist | src/mainScene.js:182-188 | `removeElements` at the found index removes the bomb's first occurrence, and the bomb is detached. The tracking invariant is kept, and no other listed node changes box or parent. |
| MainScene.Scene.Explode | src/mainScene.js:182-212 | In the handler's order: the bomb is unlisted and detached, a burst from the given centre joins the set, and the character's velocity becomes `Pushed`. The tracking invariants are kept. |
| MainScene.Scene.AddBurst | src/mainScene.js:190-202 | A burst of `PARTICLE_GROUP_SIZE` attached particles joins the set. Each particle stays in at most one place. |
| MainScene.Scene.Burst | src/mainScene.js:190-201 | A new group is created at the hit point. Its animation gets a `finish` listener and its particles are attached. |
| MainScene.Scene.GroupFinished | src/mainScene.js:195-198 | A finished group is recycled (its particles detached and pushed, then its animation, stopped) and deleted from the set. `Valid` is kept when the group was in the set. |
| MainScene.Scene.Retire | src/mainScene.js:195-198 | The particle module's listener, then the scene's: the group is recycled and deleted from the set. The bombs, the platforms and the character's velocity are untouched, and the group invariants are kept. |
| MainScene.Scene.Recycle | src/particles.js:129-131 | The particle module's `finish` listener: the group's particles and animation go back to their pools. The scene's lists, the other pools and the platforms are untouched. |
| MainScene.Scene.Enter | src/mainScene.js:318-336 | Score 0, the character at rest at its start and attached, the camera on it. The platforms are updated, game over hides and the world starts. `Valid` is kept. After `exit` the first platform is centred under the character. |
| MainScene.Scene.Reenter | src/mainScene.js:318-336 | `enter` keeps the bomb and particle bookkeeping, and `Fleet` holds over the new list. |
| MainScene.Scene.Restart | src/mainScene.js:318-336 | `enter` as `Reset` then `Start`: the restarted state, the new list, and the bombs, groups and other pools untouched. |
| MainScene.Scene.Reset | src/mainScene.js:320-329 | The score and the character are reset and the camera centres the character. The platforms are untouched. |
| MainScene.Scene.PlaceCharacter | src/mainScene.js:322-327 | The character is at rest at (`CHARACTER_INIT_X`, `PLATFORM_MIN_Y` - 120) and attached. |
| MainScene.Scene.Start | src/mainScene.js:330-334 | The platforms are updated against the new camera, game over hides and the world starts. |
| MainScene.Scene.LayPlatforms | src/mainScene.js:330 | `enter`'s platform update, leaving the reset state as it was. |
| MainScene.Scene.ShowWorld | src/mainScene.js:332-334 | Game over hides and the world starts. |
| MainScene.Scene.ExitAsWritten | src/mainScene.js:338-358 | Children are detached, the world stops, and the platforms are pushed back and the list emptied. Every bomb is recycled but stays listed, so any bomb present is now both live and free. Every group is finished and recycled. Everything except the bomb tracking (`Consistent`, which includes `Fleet`) still holds. |
| MainScene.Scene.Leave | src/mainScene.js:338-356 | `exit`'s work in order: teardown, then release. The platform pool holds every platform exactly once with an empty layout, and the groups are tracked as before. |
| MainScene.Scene.TearDown | src/mainScene.js:340-348 | Every child is detached, the world stops, and the platforms go back to their pool. `Fleet` holds over the empty list. |
| MainScene.Scene.Release | src/mainScene.js:350-356 | Every bomb is recycled in order and every group finished, and the children stay detached. |
| MainScene.Scene.RecycleBombs | src/mainScene.js:350-352 | Every listed bomb is pushed in list order, losing its listeners and parent. |
| MainScene.Scene.FinishAllGroups | src/mainScene.js:354-356 | Every group in the set is finished once, in insertion order, and recycled. The set ends empty. |
| MainScene.Scene.Exit | src/mainScene.js:338-358 | `exit` with the bomb list emptied: every bomb, platform and particle ends in exactly one place, its pool, and `Valid` holds, so the scene can be entered again. |
| MainScene.StaleBombListed | src/mainScene.js:350-352 | After `exit` as written, a listed bomb is both listed and free. |
| MainScene.StaleBombRecycledTwice | src/mainScene.js:350-352 | A second `exit` pushes such a bomb again, so the free list holds it twice. |
| MenuScene.LaunchOf | src/menuScene.js:55-77 | A spawned bomb starts just off screen, at a height in the drawn range. It is thrown upwards and into the screen at `BOMB_SPEED`, mirrored between the sides. |
| MenuScene.SpawnsStayCapped | src/menuScene.js:48-136 | However firings and removals interleave, a spawner's list stays within its cap and grows by at most one per firing. |
| MenuScene.Menu.constructor | src/menuScene.js:39-97 | No bombs, no groups, both timers idle, and the world stopped. |
| MenuScene.Menu.SpawnBomb | src/menuScene.js:48-88 | At the cap it only re-arms the timer for 500 ms. Otherwise a fresh bomb is launched as `LaunchOf` says, attached and listed, and the timer is set to the drawn delay. |
| MenuScene.Menu.SpawnParticleGroup | src/menuScene.js:99-136 | At the cap it only re-arms the timer. Otherwise a group bursts at the drawn point, is attached and listed with a `finish` listener, and the timer takes the drawn delay. |
| MenuScene.Menu.AddGroup | src/menuScene.js:118-128 | The new group is listed with every particle in at most one place. |
| MenuScene.Menu.Emit | src/menuScene.js:118-125 | `createParticleGroup`, the `finish` listener and the attaching loop. |
| MenuScene.Menu.GroupFinished | src/menuScene.js:125-128 | A finished group is recycled, then spliced out of the list at its index. A group that is not listed leaves the list as it is. |
| MenuScene.Menu.Unlist | src/menuScene.js:126-127 | `removeElements` at `indexOf` removes the group's first occurrence, or nothing. |
| MenuScene.Menu.AfterUpdate | src/menuScene.js:148-160 | The bombs above the floor stay, in order. The others are detached and recycled in order, and the tracking invariant holds. |
| MenuScene.Menu.Enter | src/menuScene.js:168-175 | Both timers are set to their minimum gap and the world starts. |
| MenuScene.Menu.ExitAsWritten | src/menuScene.js:176-201 | Bombs are recycled and their list emptied. The live `forEach` over the groups finishes only those at even positions, and the odd ones stay listed. |
| MenuScene.Menu.Exit | src/menuScene.js:176-201 | `exit` with every group finished: all bombs and groups are recycled, both lists end empty, and both timers are cleared. |
| MenuScene.Menu.TearDown | src/menuScene.js:178-181 | Every child is detached and the world stops. |
| MenuScene.Menu.ClearBombs | src/menuScene.js:183-190 | Bombs are recycled in order, the list is emptied and the timer cleared. |
| MenuScene.Menu.FinishListed | src/menuScene.js:192-194 | The live `forEach` leaves the odd-position groups listed. It recycles the even-position ones in order. |
| MenuScene.Menu.FinishPasses | src/menuScene.js:192-194 | After the loop over the original list s, the list is what the live `forEach` leaves (the odd positions), and the pools hold what the even-position groups gave back. Children and recycled bombs stay detached. |
| MenuScene.Menu.FinishPass | src/menuScene.js:192-194 | One pass k moves the loop's state from k to k + 1 passes done: group 2k of s is finished, recycled and spliced out. Children and recycled bombs stay detached. |
| MenuScene.Menu.Visit | src/menuScene.js:192-194 | Pass k finishes the group at position 2k of the original list and removes it. |
| MenuScene.Menu.FinishAllGroups | src/menuScene.js:192-195 | Finishing every group over a copy recycles them all, and the list ends empty. |
| Lists.IndexOf | src/mainScene.js:178-181 | `indexOf` is -1 exactly when the element is absent. Otherwise it is the first position holding it. |
| Lists.Without | src/coin.js:118-121 | The guarded removal leaves a list without the element unchanged. Otherwise it removes exactly one occurrence. |
| Lists.SkipStep | src/menuScene.js:192-194 | After k passes of a `forEach` whose callback removes the visited element, pass k visits the original element 2k and skips 2k+1. |
| Lists.SecondSkipped | src/menuScene.js:192-194 | With two or more elements, the second one survives such a loop. |
| Storage.TrimStart | src/storage.js:10 | `parseInt` skips exactly the leading white space. |
| Storage.DigitCount | src/storage.js:10 | `parseInt` reads the longest run of digits. |
| Storage.DigitsSpell | src/storage.js:26 | The digits `toFixed` (`Decimal`) writes for a non-negative integer spell it, without leading zeros. |
| Storage.ParseDecimal | src/storage.js:10-26 | `parseInt` (`ParseInt`) reads back what `toFixed` (`Decimal`) wrote, when it is followed by nothing, or by a character that is not a digit or x. |
| Storage.ParseSigned | src/storage.js:10 | `ParseInt` of a digit run after an optional sign is its signed value. |
| Storage.SkipsWhiteSpace | src/storage.js:10 | Leading white space does not change what `ParseInt` returns. |
| Storage.NotANumber | src/storage.js:10-13 | `ParseInt` of text with neither a sign nor a digit after its white space is `NaN`. |
| Storage.LoadDefaults | src/storage.js:8-16 | `Load` of a missing key, an empty value or text that is `NaN` is 0. |
| Storage.LoadsWritten | src/storage.js:8-26 | What an update writes (`Decimal`) loads back (`Load`) as the same score. |
| Storage.Raised | src/storage.js:21-25 | One update leaves the maximum of the highest score and the score. |
| Storage.UpdatesKeepMaximum | src/storage.js:21-27 | Over any sequence of updates the highest score is the maximum of the loaded value and the scores. |
| Storage.UpdatesNeverLower | src/storage.js:21-27 | The highest score never decreases from one update to the next. |
| Storage.HighScore.constructor | src/storage.js:8-16 | The loaded value is `Load` of the stored entry, so the store and the value agree. |
| Storage.HighScore.Update | src/storage.js:21-27 | A write happens exactly when the score beats the highest. The highest becomes the maximum, and what is written under the key loads back as it. |

## Left out

- Engine.Right: bounds are taken as right = offsetX + x + width, top = y and bottom = y + height. The engine's real bounds come from vertices the engine owns.
- Engine.NodePool.Pop: `HP.Pool` is taken to pop the last free object (LIFO) and to push at the end. The pool library is not part of this model.
- Numbers are `real` and `int`, not IEEE doubles. Rounding, `NaN` and `Infinity` are not modelled.
- MainScene.Progress: uses the exact real floor, not the floor of a rounded double.
- MainScene.Scene.BombHit: the impulse's factor is the parameter `strength`, which is only required positive. The source computes it with a square root and a fourth root. `ImpactFactor` records that relation, and `PushedSize` proves the push's size from it; `PushedAway` states the direction.
- MainScene.Scene.BombHit: when the bomb and character centres coincide, the source divides by zero. The model adds nothing instead.
- MainScene.Scene.Click: the `HUtils.throttle` wrapper is the `admitted` parameter. The 200 ms clock is not modelled.
- Particles.Emitter.CreateGroup: listeners are a set of event kinds. The particle and animation pools have no `clear` hook, so the source piles up one more `update` listener per reuse. The model does not count those copies.
- MenuScene.Menu.GroupFinished: `removeElements` at index -1 is taken to leave the list unchanged. The helper library is not part of this model. If it splices like `Array.prototype.splice`, index -1 would remove the last group instead.
- MainScene.Scene.TearDown: the world's children are a sequence the caller supplies. Their order and the world's child list are not modelled.
- MenuScene.Menu.TearDown: menuScene.js:178-180 calls `removeChild` while iterating the live `childNodes`. That is modelled as iterating a copy, as mainScene.js:340 does.
- Coins.CoinState.SpawnCoin: nothing in these files calls `spawnCoin` or `updateCoins`. Coins are never spawned from platforms, so the coin module is modelled on its own.
- Coins.CoinState.SpawnCoin: `insertBefore(character, …)` is modelled as attaching. Sibling order is not modelled.
- The score text, the game-over section's layout, the buttons, styles and the Help `alert` are left out. Game over is the flag `gameOverVisible`.
- MenuScene.Menu.SpawnBomb: `setTimeout` handles are `Timer` values. The clock, `clearTimeout` and callbacks firing are up to the caller.
- Randomizer results are parameters (`Draw`, `BombDraw`, `GroupDraw`, `speeds`) with inclusive ranges. Seeding is not modelled.
- MenuScene.LaunchOf: `cos` and `sin` of the drawn angle are two positive components. The 10–70 degree range is not otherwise constrained.
- Particles.BuildDirections: a rotation is kept as a fraction of a turn (`Polar`), and `setVector(...).scale(s)` as `Polar(turn, s)`.
- Bombs.CreateBomb: `velocity.norm = 5` is kept as `Aimed(dx, dy, 5)`, with no square root. A zero click vector is not singled out.
- Storage.ParseDecimal: digits beyond double precision (above 2^53) are exact here. `toFixed` switches to exponent form at 1e21 or more, which is not modelled.
- Storage.Load: `parseInt("-0")` is `-0` in the source and 0 here.
- Storage.HighScore.Update: `localStorage` exceptions (quota, disabled storage) are not modelled.
- The physics step, gravity, friction and collision detection belong to the engine and are left out. Collision and animation events are methods the caller invokes. Eased progress is a parameter of `Tick`.
- Engine.World.RemoveChild: scene transitions (`engine.enter`) and rendering are left out.
- MenuScene.Menu.ExitAsWritten: it requires the group list to be free of duplicates. `GroupsTracked` guarantees this, and every spawn keeps it.

## Findings

| source | as written | input that shows it | evidently intended | confidence | as-written member | corrected member |
|---|---|---|---|---|---|---|
| src/mainScene.js:350-352 | `exit` recycles every bomb with `forEach(recycleBomb)` but never empties `bombs`. | A game that ends with one bomb listed. After `exit` that bomb is in `bombs` and in the pool's free list. The next `exit` pushes it again. `createBomb` uses `create()` (src/bomb.js:45-51), so the pool is never popped. The effect is a free list that only grows and holds duplicates, plus stale detached bombs in `bombs`. | `bombs.length = 0` after the loop, as src/menuScene.js:186 does, so that every bomb is in exactly one place. | medium; not executed | MainScene.Scene.ExitAsWritten, MainScene.StaleBombListed, MainScene.StaleBombRecycledTwice | MainScene.Scene.Exit |
| src/menuScene.js:192-194 | `forEach` runs over the live `particleGroups` array while each group's `finish` listener splices it out (src/menuScene.js:125-128). | Groups [A, B] at `exit`. A finishes and is removed, and `forEach` then stops at index 1 of a list of length 1. B is never finished: it stays listed, its animation never finishes, and its particles never go back to the pool. | Every group finished and recycled, and the list emptied, as the comment at src/menuScene.js:195 says. | medium; not executed | MenuScene.Menu.ExitAsWritten, Lists.SecondSkipped | MenuScene.Menu.Exit |
