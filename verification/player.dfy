/** The player entity of `src/gameobjects/player.js`: construction defaults,
    the per-sprite animation frame table, top-down steering, the hammer and
    build actions, being hit and dying, prizes and turning. */
module PlayerEntity {
  import opened Js

  // Animation keys registered by `init()`, plus `playerground`, which
  // `animationComplete` tests for but `init()` never registers.
  const StartIdle := "startidle"
  const Idle := "playeridle"
  const Walk := "playerwalk"
  const Jump := "playerjump"
  const Hammer := "playerhammer"
  const Build := "playerbuild"
  const Dead := "playerdead"
  const Ground := "playerground"

  const DefaultSprite := "vanoSprite"
  const DefaultHealth := 10
  const KnownSprites: set<string> := {"vanoSprite", "walt", "zombie", "penguin"}

  /** The diagonal factor, written in the source as the literal `0.707`
      (an approximation of the square root of one half). */
  const DiagonalFactor: real := 0.707

  datatype FrameRange = FrameRange(start: int, end: int)

  datatype AnimationConfig = AnimationConfig(
    idle: FrameRange, walk: FrameRange, jump: FrameRange,
    hammer: FrameRange, build: FrameRange, death: FrameRange)

  /** Every one of the six animations runs forward over a non-empty range of
      non-negative frame numbers. */
  predicate Ordered(c: AnimationConfig) {
    && 0 <= c.idle.start <= c.idle.end
    && 0 <= c.walk.start <= c.walk.end
    && 0 <= c.jump.start <= c.jump.end
    && 0 <= c.hammer.start <= c.hammer.end
    && 0 <= c.build.start <= c.build.end
    && 0 <= c.death.start <= c.death.end
  }

  /** `getAnimationConfig()`: the frame table of a sprite sheet. */
  function GetAnimationConfig(sprite: string): (c: AnimationConfig)
    ensures Ordered(c)
  {
    match sprite
    case "walt" =>
      AnimationConfig(FrameRange(0, 0), FrameRange(1, 3), FrameRange(4, 4),
                      FrameRange(7, 8), FrameRange(9, 10), FrameRange(11, 16))
    case "zombie" =>
      AnimationConfig(FrameRange(0, 0), FrameRange(0, 2), FrameRange(0, 0),
                      FrameRange(3, 4), FrameRange(3, 4), FrameRange(5, 5))
    case "penguin" =>
      AnimationConfig(FrameRange(0, 1), FrameRange(2, 5), FrameRange(6, 6),
                      FrameRange(2, 3), FrameRange(4, 5), FrameRange(6, 6))
    // "vanoSprite" and every unknown sheet share one table.
    case _ =>
      AnimationConfig(FrameRange(0, 0), FrameRange(0, 1), FrameRange(0, 0),
                      FrameRange(0, 1), FrameRange(0, 1), FrameRange(0, 0))
  }

  /** An unknown sprite animates like the default sprite, and each other known
      sprite has a table of its own. */
  lemma UnknownSpriteFallsBack(sprite: string)
    ensures sprite !in KnownSprites ==> GetAnimationConfig(sprite) == GetAnimationConfig(DefaultSprite)
    ensures forall a, b :: a in KnownSprites && b in KnownSprites && a != b ==> GetAnimationConfig(a) != GetAnimationConfig(b)
  {
  }

  datatype Player = Player(
    sprite: string,
    x: real, y: real,
    health: int, dead: bool,
    right: bool, flipX: bool,
    jumping: bool, building: bool, falling: bool,
    mjolnir: bool, invincible: bool,
    walkVelocity: real, jumpVelocity: real,
    velocityX: real, velocityY: real,
    anim: string,
    bodyEnabled: bool, bodyMoves: bool, bodyImmovable: bool)

  /** The four arrow keys as held this frame. */
  datatype Cursor = Cursor(left: bool, right: bool, up: bool, down: bool)

  /** One frame of input: arrow keys held, and whether Z (hammer) and X (build)
      went down this frame. */
  datatype Input = Input(cursor: Cursor, z: bool, x: bool)

  /** Objects a player spawns, relative to its own position. */
  datatype Spawn = Blow(dx: int, dy: int, width: int, height: int) | Brick(dx: int, dy: int)

  /** The constructor. The sprite comes from the registry's `selectedPlayer`
      (any further constructor arguments are ignored); an omitted `health`
      defaults to 10. */
  function NewPlayer(registrySprite: Option<string>, x: real, y: real, health: Option<int>): (p: Player)
    ensures p.sprite == OrStr(registrySprite, DefaultSprite)
    ensures Truthy(registrySprite) ==> p.sprite == registrySprite.value
    ensures p.x == x && p.y == y
    ensures health.None? ==> p.health == DefaultHealth
    ensures health.Some? ==> p.health == health.value
    ensures !p.dead && p.right && !p.building && !p.mjolnir && !p.invincible
    ensures p.walkVelocity == 200.0 && p.jumpVelocity == -400.0
    ensures p.anim == StartIdle && p.bodyEnabled && p.bodyMoves
  {
    Player(OrStr(registrySprite, DefaultSprite), x, y, health.GetOr(DefaultHealth), false,
           true, false, false, false, false, false, false,
           200.0, -400.0, 0.0, 0.0, StartIdle, true, true, false)
  }

  /** One axis of the key handling: the positive key is tested last, so it
      wins when both are held. */
  function AxisVelocity(neg: bool, pos: bool, speed: real): real {
    if pos then speed else if neg then -speed else 0.0
  }

  /** Direction selection, diagonal normalisation and walk/idle choice of
      `update()` for a living player. */
  function Steer(p: Player, c: Cursor): (r: Player)
    requires !p.dead
    ensures r == p.(right := r.right, flipX := r.flipX, velocityX := r.velocityX,
                    velocityY := r.velocityY, anim := r.anim)
    ensures c.right ==> r.right && r.flipX
    ensures c.left && !c.right ==> !r.right && !r.flipX
    ensures !c.left && !c.right ==> r.right == p.right && r.flipX == p.flipX
  {
    var vx := AxisVelocity(c.left, c.right, p.walkVelocity);
    var vy := AxisVelocity(c.up, c.down, p.walkVelocity);
    var moving := c.left || c.right || c.up || c.down;
    var facing := if c.right then true else if c.left then false else p.right;
    var flip := if c.right then true else if c.left then false else p.flipX;
    var n := p.walkVelocity * DiagonalFactor;
    var (vx', vy') :=
      if vx != 0.0 && vy != 0.0 then (if vx > 0.0 then n else -n, if vy > 0.0 then n else -n)
      else (vx, vy);
    var anim := if moving && !p.building then Walk else if !p.building then Idle else p.anim;
    p.(right := facing, flipX := flip, velocityX := vx', velocityY := vy', anim := anim)
  }

  /** `hammerBlow()`: a blow in front of the player, large with Mjolnir. */
  function HammerBlow(p: Player): (r: (Player, Spawn))
    ensures r.0 == p.(building := true, anim := Hammer)
    ensures r.1.Blow? && r.1.dy == 0 && r.1.width == r.1.height
    ensures (r.1.dx > 0) == p.right && (r.1.dx == 32 || r.1.dx == -32)
    ensures r.1.width == (if p.mjolnir then 128 else 32)
  {
    var dx := if p.right then 32 else -32;
    var size := if p.mjolnir then 128 else 32;
    (p.(building := true, anim := Hammer), Blow(dx, 0, size, size))
  }

  /** `buildBlock()`: a brick two tiles ahead, raised once the boots prize has
      changed the jump velocity. */
  function BuildBlock(p: Player): (r: (Player, Spawn))
    ensures r.0 == p.(building := true, anim := Build)
    ensures r.1.Brick? && (r.1.dx > 0) == p.right && (r.1.dx == 64 || r.1.dx == -64)
    ensures r.1.dy == 0 <==> p.jumpVelocity == -400.0
    ensures r.1.dy == 0 || r.1.dy == -128
  {
    var dx := if p.right then 64 else -64;
    var dy := if p.jumpVelocity == -400.0 then 0 else -128;
    (p.(building := true, anim := Build), Brick(dx, dy))
  }

  /** `update()`: nothing for a dead player; otherwise steer, then the hammer
      (Z) and build (X) actions in that order. */
  function Update(p: Player, inp: Input): (r: (Player, seq<Spawn>))
    ensures p.dead ==> r == (p, [])
    ensures !p.dead ==> |r.1| == (if inp.z then 1 else 0) + (if inp.x then 1 else 0)
    ensures !p.dead ==> r.0.health == p.health && !r.0.dead
    ensures !p.dead && (inp.z || inp.x) ==> r.0.building
    ensures !p.dead && !inp.z && !inp.x ==> r.0 == Steer(p, inp.cursor)
    ensures !p.dead ==> r.0 == Steer(p, inp.cursor).(building := r.0.building, anim := r.0.anim)
    ensures !p.dead && inp.z ==> r.1[0] == HammerBlow(Steer(p, inp.cursor)).1
    ensures !p.dead && inp.x ==>
      r.1[|r.1| - 1] == BuildBlock(if inp.z then HammerBlow(Steer(p, inp.cursor)).0 else Steer(p, inp.cursor)).1
    ensures !p.dead && inp.x ==> r.0.anim == Build
    ensures !p.dead && inp.z && !inp.x ==> r.0.anim == Hammer
  {
    if p.dead then (p, [])
    else
      var q := Steer(p, inp.cursor);
      var (q1, s1) := if inp.z then var (a, b) := HammerBlow(q); (a, [b]) else (q, []);
      var (q2, s2) := if inp.x then var (a, b) := BuildBlock(q1); (a, [b]) else (q1, []);
      (q2, s1 + s2)
  }

  /** `turn()`. */
  function Turn(p: Player): (r: Player)
    ensures r.right == !p.right
    ensures r.(right := p.right) == p
  {
    p.(right := !p.right)
  }

  /** `animationComplete(animation)`: the end of a hammer or build animation
      clears `building` and falls back to jump or idle; the end of
      `playerground` falls back to idle. */
  function AnimationComplete(p: Player, key: string): (r: Player)
    ensures key == Hammer || key == Build ==>
      !r.building && r.anim == (if p.jumping then Jump else Idle)
    ensures key != Hammer && key != Build ==> r.building == p.building
    ensures key == Ground ==> r.anim == Idle
    ensures key != Hammer && key != Build && key != Ground ==> r == p
    ensures r.(building := p.building, anim := p.anim) == p
  {
    var q := if key == Ground then p.(anim := Idle) else p;
    if key == Hammer || key == Build then q.(building := false, anim := if q.jumping then Jump else Idle)
    else q
  }

  /** `die()`: dead, frozen in place; the scene is asked to restart. */
  function Die(p: Player): (r: (Player, bool))
    ensures r.0.dead && r.0.anim == Dead && !r.0.bodyMoves && r.0.bodyImmovable
    ensures r.0.health == p.health
    ensures r.0 == p.(dead := r.0.dead, anim := r.0.anim, bodyMoves := r.0.bodyMoves,
                      bodyImmovable := r.0.bodyImmovable)
    ensures r.1
  {
    (p.(dead := true, anim := Dead, bodyMoves := false, bodyImmovable := true), true)
  }

  /** `hit()`: one point of damage; the player dies when health lands exactly
      on zero. The flag says whether a scene restart was requested. */
  function Hit(p: Player): (r: (Player, bool))
    ensures r.0.health == p.health - 1
    ensures r.0.dead <==> p.dead || p.health == 1
    ensures r.1 <==> p.health == 1
    ensures !r.0.bodyEnabled && r.0.anim == Dead
    ensures r.0 == p.(health := r.0.health, anim := r.0.anim, bodyEnabled := r.0.bodyEnabled, dead := r.0.dead,
                      bodyMoves := r.0.bodyMoves, bodyImmovable := r.0.bodyImmovable)
    ensures p.health == 1 ==> !r.0.bodyMoves && r.0.bodyImmovable
    ensures p.health != 1 ==> r.0.bodyMoves == p.bodyMoves && r.0.bodyImmovable == p.bodyImmovable
  {
    var q := p.(health := p.health - 1, anim := Dead, bodyEnabled := false);
    if q.health == 0 then Die(q) else (q, false)
  }

  /** `hit()` applied `n` times. */
  function HitN(p: Player, n: nat): Player
    decreases n
  {
    if n == 0 then p else HitN(Hit(p).0, n - 1)
  }

  /** A living player with health `h >= 1` survives `h - 1` hits and dies on
      the `h`-th. */
  lemma {:induction false} DiesOnExactlyTheLastHit(p: Player, n: nat)
    requires !p.dead && p.health >= 1
    ensures HitN(p, n).health == p.health - n
    ensures HitN(p, n).dead <==> n >= p.health
    decreases n
  {
    if n > 0 {
      var q := Hit(p).0;
      if p.health == 1 {
        HitsKeepDead(q, n - 1);
      } else {
        DiesOnExactlyTheLastHit(q, n - 1);
      }
    }
  }

  /** Nothing revives a dead player. */
  lemma {:induction false} HitsKeepDead(p: Player, n: nat)
    requires p.dead
    ensures HitN(p, n).dead && HitN(p, n).health == p.health - n
    decreases n
  {
    if n > 0 {
      HitsKeepDead(Hit(p).0, n - 1);
    }
  }

  /** A living player at zero or less health is pushed further down and never
      marked dead: the test is for exactly zero. */
  lemma HitBelowZeroDoesNotKill(p: Player)
    requires !p.dead && p.health <= 0
    ensures !Hit(p).0.dead && Hit(p).0.health < 0
  {
  }

  /** The prizes `applyPrize` recognises. */
  datatype Prize = Speed | Mjolnir | Boots | Coin | Star | NoPrize

  function PrizeOf(name: string): Prize {
    match name
    case "speed" => Speed
    case "hammer" => Mjolnir
    case "boots" => Boots
    case "coin" => Coin
    case "star" => Star
    case _ => NoPrize
  }

  /** The effect of a recognised prize on the player. */
  function Grant(p: Player, k: Prize): Player {
    p.(walkVelocity := if k == Speed then 330.0 else p.walkVelocity,
       mjolnir := p.mjolnir || k == Mjolnir,
       jumpVelocity := if k == Boots then -600.0 else p.jumpVelocity,
       invincible := p.invincible || k == Star)
  }

  /** `applyPrize(prize)`; the flag asks the scene to count a coin. */
  function ApplyPrize(p: Player, prize: string): (r: (Player, bool))
    ensures r.0.walkVelocity == (if prize == "speed" then 330.0 else p.walkVelocity)
    ensures r.0.mjolnir == (p.mjolnir || prize == "hammer")
    ensures r.0.jumpVelocity == (if prize == "boots" then -600.0 else p.jumpVelocity)
    ensures r.0.invincible == (p.invincible || prize == "star")
    ensures r.0 == p.(walkVelocity := r.0.walkVelocity, mjolnir := r.0.mjolnir,
                      jumpVelocity := r.0.jumpVelocity, invincible := r.0.invincible)
    ensures r.1 <==> prize == "coin"
  {
    var k := PrizeOf(prize);
    (Grant(p, k), k == Coin)
  }

  /** Any prize other than the four power-ups leaves the player as it was. */
  lemma OtherPrizesChangeNothing(p: Player, prize: string)
    requires prize != "speed" && prize != "hammer" && prize != "boots" && prize != "star"
    ensures ApplyPrize(p, prize).0 == p
  {
  }

  /** Picking the same prize twice is the same as picking it once. */
  lemma PrizeIdempotent(p: Player, a: string)
    ensures ApplyPrize(ApplyPrize(p, a).0, a).0 == ApplyPrize(p, a).0
  {
  }

  /** Two prizes may be picked in either order. */
  lemma PrizesCommute(p: Player, a: string, b: string)
    ensures ApplyPrize(ApplyPrize(p, a).0, b).0 == ApplyPrize(ApplyPrize(p, b).0, a).0
  {
    GrantsCommute(p, PrizeOf(a), PrizeOf(b));
  }

  /** Granting is order-independent: both orders agree on the power-ups and
      leave everything else alone. */
  lemma GrantsCommute(p: Player, a: Prize, b: Prize)
    ensures Grant(Grant(p, a), b) == Grant(Grant(p, b), a)
  {
    var l := Grant(Grant(p, a), b);
    var r := Grant(Grant(p, b), a);
    GrantKeepsRest(p, a);
    GrantKeepsRest(Grant(p, a), b);
    GrantKeepsRest(p, b);
    GrantKeepsRest(Grant(p, b), a);
    assert PowerUps(l) == PowerUps(r);
    SameRestAndPowerUps(l, r);
  }

  /** The four fields a prize can write. */
  function PowerUps(p: Player): (real, real, bool, bool) {
    (p.walkVelocity, p.jumpVelocity, p.mjolnir, p.invincible)
  }

  /** Everything a prize cannot write. */
  function Rest(p: Player): Player {
    p.(walkVelocity := 0.0, jumpVelocity := 0.0, mjolnir := false, invincible := false)
  }

  lemma GrantKeepsRest(p: Player, k: Prize)
    ensures Rest(Grant(p, k)) == Rest(p)
  {
  }

  /** A player is determined by its power-ups and the rest. */
  lemma SameRestAndPowerUps(p: Player, q: Player)
    requires Rest(p) == Rest(q) && PowerUps(p) == PowerUps(q)
    ensures p == q
  {
  }

  /** The boots raise the bricks the player builds, and the hammer enlarges
      the blow, for a freshly constructed player. */
  lemma PrizesChangeActions(sprite: Option<string>, x: real, y: real)
    ensures var p := NewPlayer(sprite, x, y, Some(10));
      && BuildBlock(p).1.dy == 0
      && BuildBlock(ApplyPrize(p, "boots").0).1.dy == -128
      && HammerBlow(p).1.width == 32
      && HammerBlow(ApplyPrize(p, "hammer").0).1.width == 128
  {
  }

  /** Two turns are the identity. */
  lemma TurnTwice(p: Player)
    ensures Turn(Turn(p)) == p
  {
  }

  /** Holding right as well as left is the same as holding right alone; holding
      down as well as up is the same as holding down alone. */
  lemma LaterKeyOverrides(p: Player, c: Cursor)
    requires !p.dead
    ensures Steer(p, c.(left := true, right := true)) == Steer(p, c.(left := false, right := true))
    ensures Steer(p, c.(up := true, down := true)) == Steer(p, c.(up := false, down := true))
  {
  }

  /** Steering is mirror-symmetric: left alone gives the negated horizontal
      velocity of right alone, facing the other way. */
  lemma SteeringMirror(p: Player, up: bool, down: bool)
    requires !p.dead
    ensures var l := Steer(p, Cursor(true, false, up, down));
      var r := Steer(p, Cursor(false, true, up, down));
      && l.velocityX == -r.velocityX && l.velocityY == r.velocityY
      && !l.right && !l.flipX && r.right && r.flipX
  {
  }

  /** Velocity by key: no key stops the player; a single key moves at walking
      speed; a diagonal scales both components to `0.707` of walking speed
      with the signs of the keys. */
  lemma SteeringVelocity(p: Player, c: Cursor)
    requires !p.dead && p.walkVelocity > 0.0
    ensures var r := Steer(p, c);
      var n := p.walkVelocity * DiagonalFactor;
      && (!c.left && !c.right && !c.up && !c.down ==> r.velocityX == 0.0 && r.velocityY == 0.0)
      && ((c.left || c.right) && !c.up && !c.down ==>
            r.velocityX == (if c.right then p.walkVelocity else -p.walkVelocity) && r.velocityY == 0.0)
      && (!c.left && !c.right && (c.up || c.down) ==>
            r.velocityX == 0.0 && r.velocityY == (if c.down then p.walkVelocity else -p.walkVelocity))
      && ((c.left || c.right) && (c.up || c.down) ==>
            r.velocityX == (if c.right then n else -n) && r.velocityY == (if c.down then n else -n))
      && -p.walkVelocity <= r.velocityX <= p.walkVelocity
      && -p.walkVelocity <= r.velocityY <= p.walkVelocity
  {
  }

  /** Walk when moving, idle when still, and while building the current
      animation (hammer or build) is left alone; steering never changes
      `building`, health or `dead`. */
  lemma SteeringAnimation(p: Player, c: Cursor)
    requires !p.dead
    ensures var r := Steer(p, c);
      var moving := c.left || c.right || c.up || c.down;
      && r.building == p.building && r.health == p.health && !r.dead
      && (p.building ==> r.anim == p.anim)
      && (!p.building && moving ==> r.anim == Walk)
      && (!p.building && !moving ==> r.anim == Idle)
  {
  }

  /** A hammer blow or a build holds the player's animation until that
      animation completes, which releases it. */
  lemma BuildingLifecycle(p: Player, c: Cursor)
    requires !p.dead
    ensures Steer(HammerBlow(p).0, c).anim == Hammer
    ensures Steer(BuildBlock(p).0, c).anim == Build
    ensures !AnimationComplete(Steer(HammerBlow(p).0, c), Hammer).building
    ensures !AnimationComplete(Steer(BuildBlock(p).0, c), Build).building
  {
  }

  /** An action started in one frame holds its animation through a later frame
      of plain steering: the next `update()` keeps the player building with the
      same animation, and spawns nothing. */
  lemma ActionHeldAcrossFrames(p: Player, inp: Input, c: Cursor)
    requires !p.dead && (inp.z || inp.x)
    ensures var q := Update(p, inp).0;
      var next := Update(q, Input(c, false, false));
      && next.1 == []
      && next.0.building
      && next.0.anim == q.anim
      && next.0.anim == (if inp.x then Build else Hammer)
  {
  }
}
