/**
 * The game-rule state machine of the SeaGame scene: spawning enemies and
 * bonuses on the timer tick, resolving contacts with the player, pruning
 * children that fell off screen each frame, and dragging the player.
 */
module Scene {
  import opened Options
  import opened Rules
  import opened Children

  /** A touch location in scene coordinates. */
  datatype Point = Point(x: int, y: int)

  /**
   * The node `didBegin` hands to `playerHit` for a contact between the bodies
   * of `nodeA` and `nodeB`: nothing when either body has lost its node;
   * otherwise the party that is not the player; and, when neither is the
   * player, `nodeA` (the code does not check that the player is involved).
   */
  function ContactTarget(nodeA: Node?, nodeB: Node?, player: Node): (target: Option<Node>)
    ensures target.None? <==> nodeA == null || nodeB == null
    ensures target.Some? ==> target.value == nodeA || target.value == nodeB
    ensures target.Some? && (nodeA == player) != (nodeB == player) ==> target.value != player
    ensures target.Some? && nodeA != player ==> target.value == nodeA
  {
    if nodeA == null || nodeB == null then None
    else if nodeA == player then Some(nodeB)
    else Some(nodeA)
  }

  class GameScene {
    /** The scene's child list, in insertion order. */
    var children: seq<Node>
    const player: Node
    const music: Node
    var score: int
    var touchingPlayer: bool
    var lastUpdateTime: real

    ghost predicate Valid()
      reads this
    {
      Distinct(children) && player != music && player.name == None
    }

    /** `player.parent != nil` */
    predicate PlayerInScene()
      reads this
    {
      player in children
    }

    /** `music.parent != nil` */
    predicate MusicInScene()
      reads this
    {
      music in children
    }

    function CurrentTally(): Tally
      reads this
    {
      Tally(score, PlayerInScene())
    }

    /**
     * A freshly loaded scene (`sceneDidLoad`): score label, water background,
     * the bubble emitter when its file loads, the player at x = -300, and the
     * music. The game-over re-presentation builds a new scene this way.
     */
    constructor (bubblesLoaded: bool)
      ensures Valid()
      ensures score == 0 && !touchingPlayer && lastUpdateTime == 0.0
      ensures PlayerInScene() && MusicInScene()
      ensures player.kind == Sprite("player-submarine") && player.name == None
      ensures player.x == -300 && player.y == 0
      ensures music.kind == Audio("cyborg-ninja.mp3") && music.name == None
      ensures |children| == if bubblesLoaded then 5 else 4
      ensures forall n :: n in children ==> fresh(n) && n.name == None && n.y >= OffscreenY
    {
      var scoreLabel := new Node(Label("AvenireNextCondensed-Bold"), None, 0, 125);
      var background := new Node(Sprite("water"), None, 0, 0);
      var p := new Node(Sprite("player-submarine"), None, -300, 0);
      var m := new Node(Audio("cyborg-ninja.mp3"), None, 0, 0);
      if bubblesLoaded {
        var bubbles := new Node(Emitter("Bubbles"), None, 512, 0);
        children := [scoreLabel, background, bubbles, p, m];
      } else {
        children := [scoreLabel, background, p, m];
      }
      player := p;
      music := m;
      score := 0;
      touchingPlayer := false;
      lastUpdateTime := 0.0;
    }

    /** `addChild`: SpriteKit refuses a node that already has a parent. */
    method AddChild(node: Node)
      requires Valid() && node !in children
      modifies this`children
      ensures Valid() && children == old(children) + [node]
    {
      children := children + [node];
    }

    /** `node.removeFromParent()`, a no-op when the node is not a child. */
    method RemoveFromParent(node: Node)
      requires Valid()
      modifies this`children
      ensures Valid() && children == Without(old(children), node)
    {
      WithoutDistinct(children, node);
      children := Without(children, node);
    }

    /** `createBonus`: one fish named "bonus" at (x, SpawnY), appended last. */
    method CreateBonus(x: int)
      requires Valid() && InDrawRange(x)
      modifies this`children
      ensures Valid()
      ensures |children| == |old(children)| + 1 && children[..|old(children)|] == old(children)
      ensures var b := children[|old(children)|];
        fresh(b) && b.kind == Sprite("fish") && b.name == Some("bonus") && b.x == x && b.y == SpawnY
      ensures score == old(score) && CurrentTally() == old(CurrentTally())
    {
      var sprite := new Node(Sprite("fish"), Some("bonus"), x, SpawnY);
      AddChild(sprite);
      assert PlayerInScene() <==> player in old(children);
    }

    /**
     * `createEnemy`, run on every spawn-timer tick (also after game over, since
     * the timer is never cancelled): one enemy at (enemyX, SpawnY), a survival
     * point if the player is still in the scene, and a bonus at (bonusX,
     * SpawnY) when the second draw is even.
     */
    method CreateEnemy(enemyX: int, bonusDraw: int, bonusX: int)
      requires Valid() && InDrawRange(enemyX) && InDrawRange(bonusDraw) && InDrawRange(bonusX)
      modifies this`children, this`score
      ensures Valid()
      ensures var k := |old(children)|;
        |children| == k + (if IsEvenDraw(bonusDraw) then 2 else 1) && children[..k] == old(children)
      ensures var e := children[|old(children)|];
        fresh(e) && e.kind == Sprite("enemy") && e.name == Some("enemy") && e.x == enemyX && e.y == SpawnY
      ensures IsEvenDraw(bonusDraw) ==> var b := children[|old(children)| + 1];
        fresh(b) && b.kind == Sprite("fish") && b.name == Some("bonus") && b.x == bonusX && b.y == SpawnY
      ensures score == old(score) + (if old(PlayerInScene()) then SurvivalPoints else 0)
      ensures CurrentTally() == Step(old(CurrentTally()), Spawn)
    {
      var sprite := new Node(Sprite("enemy"), Some("enemy"), enemyX, SpawnY);
      AddChild(sprite);
      assert PlayerInScene() <==> old(PlayerInScene());
      if PlayerInScene() {
        score := score + SurvivalPoints;
      }
      if SwiftRem(bonusDraw, 2) == 0 {
        CreateBonus(bonusX);
      }
    }

    /** `playerHit` on a node named "bonus": 5 points while the player is in the scene, and that node leaves. */
    twostate predicate BonusApplied(node: Node)
      reads this
    {
      && score == old(score) + (if old(PlayerInScene()) then BonusPoints else 0)
      && children == Without(old(children), node)
    }

    /**
     * `playerHit` on any other node: the explosion emitter (when its file
     * loads) is added at the player's position, player and music leave the
     * scene, and a game-over sprite is added last at (0, 0); the score is kept. The
     * branch has no guard, so every repeated fatal hit adds another game-over
     * sprite.
     */
    twostate predicate FatalApplied(explosionLoaded: bool)
      reads this, player, children
    {
      var kept := Without(Without(old(children), player), music);
      var k := |kept|;
      && score == old(score)
      && player !in children && music !in children
      && |children| == k + (if explosionLoaded then 2 else 1)
      && children[..k] == kept
      && (explosionLoaded ==>
            fresh(children[k]) && children[k].kind == Emitter("Explosion")
            && children[k].name == None
            && children[k].x == player.x && children[k].y == player.y)
      && fresh(children[|children| - 1])
      && children[|children| - 1].kind == Sprite("gameover")
      && children[|children| - 1].name == None
      && children[|children| - 1].x == 0 && children[|children| - 1].y == 0
    }

    twostate predicate HitApplied(node: Node, explosionLoaded: bool)
      reads this, player, children
    {
      if node.name == Some("bonus") then BonusApplied(node) else FatalApplied(explosionLoaded)
    }

    /** `playerHit(node)`: a bonus catch or the end of the game. */
    method PlayerHit(node: Node, explosionLoaded: bool)
      requires Valid()
      modifies this`children, this`score
      ensures Valid()
      ensures HitApplied(node, explosionLoaded)
      ensures node.name == Some("bonus") ==> (PlayerInScene() <==> old(PlayerInScene()))
      ensures CurrentTally() == Step(old(CurrentTally()), if node.name == Some("bonus") then BonusHit else FatalHit)
    {
      if node.name == Some("bonus") {
        if PlayerInScene() {
          score := score + BonusPoints;
        }
        RemoveFromParent(node);
        return;
      }
      EndGame(explosionLoaded);
    }

    /** The fatal branch of `playerHit`, in the order the scene performs it. */
    method EndGame(explosionLoaded: bool)
      requires Valid()
      modifies this`children
      ensures Valid()
      ensures FatalApplied(explosionLoaded)
    {
      ghost var before := children;
      ghost var added: seq<Node> := [];
      if explosionLoaded {
        var particles := new Node(Emitter("Explosion"), None, player.x, player.y);
        AddChild(particles);
        added := [particles];
      }
      RemoveFromParent(player);
      RemoveFromParent(music);
      WithoutTwoBeforeAppend(before, added, player, music);
      var gameOver := new Node(Sprite("gameover"), None, 0, 0);
      AddChild(gameOver);
    }

    /**
     * `didBegin`: the contact is ignored when either body has no node;
     * otherwise ContactTarget picks the node passed to `playerHit`.
     */
    method DidBegin(nodeA: Node?, nodeB: Node?, explosionLoaded: bool)
      requires Valid()
      modifies this`children, this`score
      ensures Valid()
      ensures ContactTarget(nodeA, nodeB, player).None? ==> children == old(children) && score == old(score)
      ensures ContactTarget(nodeA, nodeB, player).Some? ==> HitApplied(ContactTarget(nodeA, nodeB, player).value, explosionLoaded)
      ensures CurrentTally() == Step(old(CurrentTally()),
        match ContactTarget(nodeA, nodeB, player)
        case None => Quiet
        case Some(n) => if n.name == Some("bonus") then BonusHit else FatalHit)
    {
      if nodeA == null || nodeB == null {
        return;
      }
      if nodeA == player {
        PlayerHit(nodeB, explosionLoaded);
      } else {
        PlayerHit(nodeA, explosionLoaded);
      }
    }

    /**
     * The clean-up loop at the start of `update`: it walks a snapshot of the
     * children and removes each node below OffscreenY, whatever it is (the
     * player included); the rest keep their order. The removals are applied
     * to a working copy of the child list that is stored back after the loop.
     */
    method RemoveOffscreen()
      requires Valid()
      modifies this`children
      ensures Valid()
      ensures children == Survivors(old(children))
    {
      var snapshot := children;
      var remaining := children;
      var i := 0;
      while i < |snapshot|
        invariant 0 <= i <= |snapshot|
        invariant remaining == Survivors(snapshot[..i]) + snapshot[i..]
      {
        var node := snapshot[i];
        if node.y < OffscreenY {
          PruneStep(snapshot, i);
          remaining := Without(remaining, node);  // node.removeFromParent()
        } else {
          KeepStep(snapshot, i);
        }
        i := i + 1;
      }
      assert snapshot[..i] == snapshot;
      children := remaining;
      SurvivorsDistinct(snapshot);
    }

    /**
     * `update(currentTime)`: the off-screen children are removed, then the
     * frame time is recorded. `dt` is 0 on the first frame, when
     * `lastUpdateTime` is still 0.
     */
    method Update(currentTime: real) returns (dt: real)
      requires Valid()
      modifies this`children, this`lastUpdateTime
      ensures Valid()
      ensures children == Survivors(old(children))
      ensures dt == if old(lastUpdateTime) == 0.0 then 0.0 else currentTime - old(lastUpdateTime)
      ensures lastUpdateTime == currentTime
      ensures score == old(score)
      ensures CurrentTally() ==
        Step(old(CurrentTally()), if old(PlayerInScene()) && player.y < OffscreenY then PlayerPruned else Quiet)
    {
      RemoveOffscreen();
      if lastUpdateTime == 0.0 {
        lastUpdateTime := currentTime;
      }
      dt := currentTime - lastUpdateTime;
      lastUpdateTime := currentTime;
    }

    /** `touchesBegan`: grabbing starts when the first touch lands on the player. */
    method TouchesBegan(first: Option<Point>, nodesAt: Point -> seq<Node>)
      modifies this`touchingPlayer
      ensures touchingPlayer == (old(touchingPlayer) || (first.Some? && player in nodesAt(first.value)))
    {
      if first.None? {
        return;
      }
      if player in nodesAt(first.value) {
        touchingPlayer := true;
      }
    }

    /** `touchesMoved`: while the player is grabbed it follows the first touch. */
    method TouchesMoved(first: Option<Point>)
      modifies player
      ensures touchingPlayer && first.Some? ==> player.x == first.value.x && player.y == first.value.y
      ensures !(touchingPlayer && first.Some?) ==> unchanged(player)
    {
      if !touchingPlayer {
        return;
      }
      if first.None? {
        return;
      }
      player.x, player.y := first.value.x, first.value.y;
    }

    /** `touchesEnded`: the grab always ends. */
    method TouchesEnded()
      modifies this`touchingPlayer
      ensures !touchingPlayer
    {
      touchingPlayer := false;
    }
  }

  /**
   * A short game driven through the scene's entry points: a spawn tick, a
   * bonus catch, a fatal contact, a tick after game over, and a second fatal
   * contact with the same enemy.
   */
  method PlayThrough()
  {
    var scene := new GameScene(false);
    scene.CreateEnemy(100, 4, -40);
    assert IsEvenDraw(4);
    assert scene.score == 1 && |scene.children| == 6;
    var enemy, fish := scene.children[4], scene.children[5];
    assert fish.name == Some("bonus") && enemy.name == Some("enemy");

    scene.DidBegin(scene.player, fish, true);
    assert scene.score == 6 && scene.PlayerInScene() && fish !in scene.children;

    scene.DidBegin(enemy, scene.player, true);
    assert scene.score == 6 && !scene.PlayerInScene() && !scene.MusicInScene();
    var overOnce := scene.children[|scene.children| - 1];
    assert overOnce.kind == Sprite("gameover") && overOnce.x == 0 && overOnce.y == 0;

    scene.CreateEnemy(0, 3, 0);
    assert !IsEvenDraw(3);
    assert scene.score == 6 && scene.children[|scene.children| - 1].name == Some("enemy");
    assert overOnce in scene.children && overOnce != scene.player && overOnce != scene.music;

    scene.DidBegin(enemy, scene.player, false);
    var overTwice := scene.children[|scene.children| - 1];
    assert overTwice.kind == Sprite("gameover") && overTwice != overOnce && overOnce in scene.children;
    assert scene.score == 6;
  }
}
