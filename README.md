# SeaGame scene rules in Dafny

A model of the game logic of SeaGame's `GameScene`, a SpriteKit scene in which
a submarine dodges enemies and catches fish. The scene holds a list of child
nodes, among them the player and the background music. A repeating timer
calls `createEnemy`. Each call appends an enemy, gives one survival point
while the player is still in the scene, and on an even draw also appends a
bonus fish. When the physics engine reports a contact, `didBegin` hands one
node to `playerHit`. A fish scores five points and disappears. Anything else
ends the game: the player and music leave the scene and a game-over sprite
appears. Every frame, `update` removes the children that have fallen below
y = -300. Touches let the player drag the submarine.

Layout:

- `options.dfy` (`Options`): Swift optionals as `Option<T>`.
- `rules.dfy` (`Rules`): the constants, Swift's truncating `%`, and the score
  bookkeeping as a step function over scene events. `Run` applies a sequence
  of events. The lemmas about `Run` cover every sequence of calls.
- `children.dfy` (`Children`): the `Node` class and the two list operations
  the scene uses. `Without` models `removeFromParent`. `Survivors` models one
  frame's clean-up.
- `game_scene.dfy` (`Scene`): the `GameScene` class. `children` is a
  `seq<Node>` field. `player` and `music` are constant fields. "The player is
  in the scene" (`player.parent != nil`) is the predicate `PlayerInScene`,
  which reads `player in children`. Each entry point is a method whose
  contract gives the new state in terms of the old one. `CurrentTally` ties
  the score rules of each method to `Rules.Step`. `PlayThrough` is a client
  that drives one short game through the contracts.

Random draws, the touch location and the hit test are method parameters.
Whether the optional particle files load is also a parameter. Each draw comes
from a `GKRandomDistribution` over [-250, 350], so each draw parameter must
lie in that range.

The model follows the code as written, including these behaviours:

- Spawned nodes take the random value as x and sit at y = 300.
- The spawn timer is never cancelled. Ticks after game over still add enemies
  and bonuses, but no longer add points, because the player is gone.
- The fatal branch has no guard. Each repeated fatal contact adds another
  game-over sprite, and another explosion when that file loads.
- When neither contact node is the player, `didBegin` still hands over
  `nodeA`; it does not ignore the contact.
- There is no game-state field. "Playing" versus "over" is only whether the
  player node is still in the scene. The clean-up can also remove the player
  if it is dragged below y = -300. After that, spawns score nothing.

## Model

| member | source | states |
|---|---|---|
| `Rules.SwiftRem` | SeaGame/GameScene.swift:151 | Swift's remainder takes the sign of the dividend: it lies in [0, b) for a non-negative dividend and in (-b, 0] for a negative one |
| `Rules.IsEvenDraw` | SeaGame/GameScene.swift:151 | the bonus test `draw % 2 == 0`, evaluated with Swift's remainder, holds exactly when the draw is even, negative draws included |
| `Rules.Step` | SeaGame/GameScene.swift:147-209 | one event never lowers the score and never brings a removed player back; it adds exactly 1 for a spawn and 5 for a bonus contact while the player is in the scene, and nothing otherwise; with the player gone, no event changes anything |
| `Rules.RunNeverLowersScore` | SeaGame/GameScene.swift:147-198 | no sequence of spawn ticks, contacts, frames or touches ever lowers the score |
| `Rules.RunAfterPlayerGone` | SeaGame/GameScene.swift:194-209 | once the player has left the scene, nothing brings it back and the score stays fixed from then on, whatever spawns and contacts follow |
| `Rules.RunWhilePlayerIn` | SeaGame/GameScene.swift:147-198 | while the player stays in the scene, the score grows by exactly 1 per spawn tick and 5 per bonus contact |
| `Children.Without` | SeaGame/GameScene.swift:199 | `removeFromParent`: the node removed is absent afterwards, every other child is kept, no other node appears, and the list does not grow |
| `Children.WithoutDistinct` | SeaGame/GameScene.swift:199 | removing a node from a list that holds no node twice leaves a list that holds no node twice |
| `Children.WithoutMissing` | SeaGame/GameScene.swift:199 | removing a node that is no longer a child is a no-op |
| `Children.WithoutOnce` | SeaGame/GameScene.swift:106 | removing a child held once takes out exactly that entry and leaves the others in order |
| `Children.Survivors` | SeaGame/GameScene.swift:104-108 | after clean-up no child has y < -300, every child with y >= -300 is still there, and no other node appears |
| `Children.SurvivorsDistinct` | SeaGame/GameScene.swift:104-108 | clean-up of a list that holds no node twice leaves a list that holds no node twice |
| `Children.SurvivorsConcat` | SeaGame/GameScene.swift:104-108 | clean-up keeps the surviving children in their original relative order |
| `Children.SurvivorsAllOnScreen` | SeaGame/GameScene.swift:105 | when no child is below y = -300, clean-up removes nothing |
| `Children.SurvivorsIdempotent` | SeaGame/GameScene.swift:104-108 | a second clean-up with no motion in between removes nothing more, so each off-screen child is removed exactly once |
| `Children.PruneStep` | SeaGame/GameScene.swift:104-108 | one iteration of the clean-up loop that removes the current node leaves the list cleaned up to that node |
| `Scene.GameScene.AddChild` | SeaGame/GameScene.swift:136 | `addChild`: only a node without a parent may be added; it is appended last and every earlier child is kept in order |
| `Scene.GameScene.RemoveFromParent` | SeaGame/GameScene.swift:199 | `removeFromParent`: the children become `Without` of the old children, still with no node twice |
| `Scene.ContactTarget` | SeaGame/GameScene.swift:178-187 | no node when either body has lost its node; otherwise one of the two nodes; the non-player one when exactly one is the player; `nodeA` whenever `nodeA` is not the player |
| `Scene.GameScene.constructor` | SeaGame/GameScene.swift:34-68 | a fresh scene has score 0, no grab, `lastUpdateTime` 0, the player at (-300, 0) and the music among its 4 children (5 when the bubble emitter loads), all on screen |
| `Scene.GameScene.CreateEnemy` | SeaGame/GameScene.swift:130-156 | appends one fresh "enemy" at (first draw, 300); adds 1 to the score exactly when the player is in the scene, also after game over; appends one fresh "bonus" at (third draw, 300) exactly when the second draw is even; the earlier children are kept |
| `Scene.GameScene.CreateBonus` | SeaGame/GameScene.swift:158-176 | appends exactly one fresh "bonus" fish at (x, 300); the score and the player's presence are unchanged |
| `Scene.GameScene.PlayerHit` | SeaGame/GameScene.swift:189-225 | for a "bonus" node: the score rises by 5 only if the player is in the scene, and only that node is removed. For any other node: player and music leave the scene, the score is kept, the explosion emitter (when it loads) is added at the player's position, and a fresh game-over sprite is added last at (0, 0), on every call |
| `Scene.GameScene.EndGame` | SeaGame/GameScene.swift:202-214 | the fatal branch: player and music leave the scene, the explosion emitter (when it loads) is added at the player's position, a fresh game-over sprite is added last at (0, 0), all other children are kept in order |
| `Scene.GameScene.DidBegin` | SeaGame/GameScene.swift:178-187 | nothing changes when either body has no node; otherwise the effect is exactly `playerHit` applied to `ContactTarget` |
| `Scene.GameScene.RemoveOffscreen` | SeaGame/GameScene.swift:104-108 | the children become exactly `Survivors` of the old children, and still hold no node twice |
| `Scene.GameScene.Update` | SeaGame/GameScene.swift:101-128 | the children become `Survivors` of the old children; `dt` is 0 on the first frame and the elapsed time afterwards; `lastUpdateTime` becomes the current time; the score is kept, and the player leaves exactly when it was below y = -300 |
| `Scene.GameScene.TouchesBegan` | SeaGame/GameScene.swift:74-83 | the grab flag is set when the first touch's hit test contains the player, and is otherwise left as it was (never cleared here) |
| `Scene.GameScene.TouchesMoved` | SeaGame/GameScene.swift:85-93 | while grabbed and when there is a touch, the player moves to the touch location; otherwise the player is unchanged |
| `Scene.GameScene.TouchesEnded` | SeaGame/GameScene.swift:95-98 | the grab flag is always cleared |

## Left out

- Rendering: z-positions, textures, the score label's text (kept up to date by
  the `score` observer), the background and the particle pre-simulation.
  Nodes keep only their kind, name and position.
- Physics: bodies, the -500 velocity, damping and the bit masks. The masks are
  why every contact reported involves the player. The engine moves nodes;
  the model changes positions only at spawn and by dragging. `Update` prunes
  whatever positions the nodes hold.
- Positions are integers and times are exact reals. SpriteKit's `CGFloat`
  and `TimeInterval` rounding is not modelled.
- Sound: the explosion sound and the music's playback. Music is modelled only
  as a child node whose presence is tracked.
- Scheduling: the 1.8-second timer set in `didMove(to:)` is not modelled.
  `CreateEnemy` is an entry point that may be called at any time.
- The two-second delayed re-presentation of a new scene is modelled only as
  the constructor, which builds a fresh scene with score 0. The old scene is
  not discarded.
- Randomness and hit testing: the `GKRandomDistribution` draws, `nodes(at:)`
  and touch locations are parameters.
- RemoveOffscreen: the loop removes nodes from a working copy of the child
  list and stores it back once after the loop, rather than after every
  removal. Nothing else runs during the loop, so no caller can see the
  difference.
- Scene.GameScene.constructor: the scene is loaded from the "GameScene" scene
  file, which is not part of this model. The model assumes that file adds no
  children of its own before `sceneDidLoad` runs.
- Score overflow: `score` is a Swift `Int`, and `+= 1` or `+= 5` would trap
  on overflow. The model's score is an unbounded integer and does not model
  that trap.
- Scene.GameScene.TouchesBegan: the hit-test parameter is unconstrained. The
  real `nodes(at:)` returns only nodes in the scene, so after game over it
  cannot report the player; the model would still set the grab flag if the
  hit test claimed it. No proved property depends on this.
- The `entities` and `graphs` lists and the per-entity update loop. The list
  is never filled, so `Update` only returns `dt`.
