/** The state rules of `src/scenes/game.js`: the game-mode flag, the local
    player's id, entering a door, a foe touching the player, the health text,
    and the replication bookkeeping that keeps one proxy per remote player in
    the `remotePlayers` map (snapshots, departures, `kick` and `healthUpdate`
    actions). Rendering, tweens and physics are replaced by the values they
    would be driven to. */
module GameScene {
  import opened Js
  import opened OrderedMap
  import Door
  import PlayerEntity
  import Combat

  // ------------------------------------------------------------ game mode

  datatype Mode = Mode(gameMode: string, isMultiplayer: bool)

  /** `create()`: the registry's `gameMode`, `"singleplayer"` when unset or
      empty; multiplayer exactly for `"host"` and `"join"`. */
  function GameMode(registry: Option<string>): (m: Mode)
    ensures !Truthy(registry) ==> m == Mode("singleplayer", false)
    ensures Truthy(registry) ==> m.gameMode == registry.value
    ensures m.isMultiplayer <==> Truthy(registry) && (registry.value == "host" || registry.value == "join")
  {
    var mode := OrStr(registry, "singleplayer");
    Mode(mode, mode == "host" || mode == "join")
  }

  /** `addPlayer()`: the local player's id is the socket id in multiplayer
      with a network manager, and `"localPlayer"` otherwise. */
  function LocalPlayerId(m: Mode, hasNetwork: bool, networkId: Option<string>): (id: Option<string>)
    ensures !m.isMultiplayer ==> id == Some("localPlayer")
    ensures m.isMultiplayer && hasNetwork ==> id == networkId
    ensures m.isMultiplayer && !hasNetwork ==> id == Some("localPlayer")
  {
    if m.isMultiplayer && hasNetwork then networkId else Some("localPlayer")
  }

  /** A single-player game, whatever the registry held, always calls its
      player `"localPlayer"`. */
  lemma SinglePlayerIdentity(registry: Option<string>, hasNetwork: bool, networkId: Option<string>)
    requires !Truthy(registry) || registry.value == "singleplayer"
    ensures !GameMode(registry).isMultiplayer
    ensures LocalPlayerId(GameMode(registry), hasNetwork, networkId) == Some("localPlayer")
  {
  }

  // ---------------------------------------------------------------- doors

  /** The stage transition `enterDoor` schedules 500 ms after a door opens. */
  datatype Transition = Transition(scene: string, name: string, number: int)

  /** `enterDoor(player, door)`: if the door fires, play the stage sound and
      start the transition to the door's target stage. */
  function EnterDoor(d: Door.Door): (r: (Door.Door, Option<Transition>, seq<string>))
    ensures r.1.Some? <==> !d.isActivated && d.targetScene.Some?
    ensures r.1.Some? ==> r.1.value == Transition("transition", "STAGE", d.targetScene.value)
    ensures r.1.Some? ==> r.0.isActivated && r.2 == ["stage"]
    ensures r.1.None? ==> r.0 == d && r.2 == []
  {
    var (d', fired) := Door.Activate(d);
    if fired then (d', Some(Transition("transition", "STAGE", d.targetScene.value)), ["stage"])
    else (d', None, [])
  }

  /** Standing in a doorway fires the transition once: the second overlap
      does nothing. */
  lemma EnterDoorOnce(d: Door.Door)
    ensures EnterDoor(EnterDoor(d).0).1.None?
    ensures EnterDoor(EnterDoor(d).0).0 == EnterDoor(d).0
  {
  }

  // ---------------------------------------------------------------- foes

  /** What `hitPlayer` does: kill the foe, ask the player to take one point
      of damage, and which sounds play. */
  datatype FoeContact = FoeContact(foeDies: bool, damageRequested: bool, sounds: seq<string>)

  /** `hitPlayer(player, foe)`: an invincible player kills the foe; otherwise
      a living player on a numbered stage takes 1 damage through
      `takeDamage`, whose result is `outcome`; the death sound plays only if
      that damage was applied and killed. */
  function HitPlayer(p: PlayerEntity.Player, canTakeDamage: bool, stageNumber: int, outcome: Option<Combat.DamageResult>): (c: FoeContact)
    ensures c.foeDies <==> p.invincible
    ensures c.damageRequested <==> !p.invincible && !p.dead && stageNumber > 0 && canTakeDamage
    ensures c.foeDies ==> c.sounds == ["foedeath"]
    ensures !c.foeDies ==> (c.sounds == ["death"] <==> c.damageRequested && outcome.Some? && outcome.value.applied && outcome.value.died)
    ensures !c.foeDies && c.sounds != ["death"] ==> c.sounds == []
  {
    if p.invincible then FoeContact(true, false, ["foedeath"])
    else if !p.dead && stageNumber > 0 then
      if canTakeDamage then
        FoeContact(false, true, if outcome.Some? && outcome.value.applied && outcome.value.died then ["death"] else [])
      else FoeContact(false, false, [])
    else FoeContact(false, false, [])
  }

  /** After the star prize, every foe that touches the player dies and the
      player is never asked to take damage. */
  lemma StarMakesFoesDie(p: PlayerEntity.Player, canTakeDamage: bool, stageNumber: int, outcome: Option<Combat.DamageResult>)
    ensures var q := PlayerEntity.ApplyPrize(p, "star").0;
      HitPlayer(q, canTakeDamage, stageNumber, outcome).foeDies
      && !HitPlayer(q, canTakeDamage, stageNumber, outcome).damageRequested
  {
  }

  // --------------------------------------------------------- health text

  /** `updateHealthUI(current, max)`: the numbers the `HP: h/m` text shows,
      or nothing without a text object. */
  function UpdateHealthUI(hasText: bool, current: Option<int>, max: Option<int>): (t: Option<(int, int)>)
    ensures t.None? <==> !hasText
    ensures t.Some? ==> 0 <= t.value.0 <= t.value.1
    ensures t.Some? ==> t.value.1 == (if max.Some? && max.value > 0 then max.value else 0)
    ensures t.Some? && current.Some? && 0 <= current.value <= t.value.1 ==> t.value.0 == current.value
    ensures t.Some? && (current.None? || current.value < 0) ==> t.value.0 == 0
    ensures t.Some? && current.Some? && current.value > t.value.1 ==> t.value.0 == t.value.1
  {
    if !hasText then None
    else
      var clampedMax := Max(OrInt(max, 0), 0);
      var clampedHealth := Max(Min(OrInt(current, 0), clampedMax), 0);
      Some((clampedHealth, clampedMax))
  }

  // --------------------------------------------------------- replication

  /** A player object as the scene sees it: the entity, the id the scene
      gave it, and the fields the scene adds or reads that the entity does
      not define. */
  datatype Avatar = Avatar(
    body: PlayerEntity.Player,
    playerId: Option<string>,
    attacking: bool,
    maxHealth: Option<int>,
    isLocal: bool)

  /** The scene's multiplayer state: the own id (the network manager's
      `playerId`), whether there is a network manager, the local player, the
      remote proxies keyed by id, the live attack zones, and the inputs a
      proxy is built from. */
  datatype GameState = GameState(
    localId: Option<string>,
    hasNetwork: bool,
    local: Option<Avatar>,
    remotePlayers: Entries<Option<string>, Avatar>,
    attacks: seq<Combat.Zone>,
    hasAttackGroup: bool,
    registrySprite: Option<string>,
    proxyWidth: real)

  /** The map is a real map, never holds a proxy for the own id, and every
      proxy is stored under its own id. */
  ghost predicate Valid(g: GameState) {
    && UniqueKeys(g.remotePlayers)
    && g.localId !in ToMap(g.remotePlayers)
    && forall k :: k in ToMap(g.remotePlayers) ==> ToMap(g.remotePlayers)[k].playerId == k
  }

  /** The `playerData` of a `playerUpdate`; absent fields are `None`. */
  datatype Snapshot = Snapshot(x: Option<real>, y: Option<real>, flipX: Option<bool>, animation: Option<string>, playerSprite: Option<string>)

  predicate Positioned(s: Option<Snapshot>) {
    s.Some? && s.value.x.Some? && s.value.y.Some?
  }

  /** `createRemotePlayer`: a fresh entity with 10 health at the snapshot's
      position. Its sprite is the registry's (the entity ignores the sprite
      the snapshot names). */
  function CreateRemotePlayer(g: GameState, id: Option<string>, x: real, y: real): (a: Avatar)
    ensures a.playerId == id && !a.isLocal && !a.attacking && a.maxHealth.None?
    ensures a.body == PlayerEntity.NewPlayer(g.registrySprite, x, y, Some(10))
    ensures a.body.sprite == OrStr(g.registrySprite, PlayerEntity.DefaultSprite) && a.body.health == 10
  {
    Avatar(PlayerEntity.NewPlayer(g.registrySprite, x, y, Some(10)), id, false, None, false)
  }

  /** `updateRemotePlayer`: the proxy moves to the snapshot's position (the
      100 ms tween, taken at its destination), takes the flip, and plays the
      snapshot's animation when it names one. */
  function UpdateRemotePlayer(a: Avatar, s: Snapshot): (r: Avatar)
    requires s.x.Some? && s.y.Some?
    ensures r.body.x == s.x.value && r.body.y == s.y.value
    ensures r.body.flipX == s.flipX.GetOr(false)
    ensures r.body.anim == (if Truthy(s.animation) then s.animation.value else a.body.anim)
    ensures r.body == a.body.(x := r.body.x, y := r.body.y, flipX := r.body.flipX, anim := r.body.anim)
    ensures r.playerId == a.playerId && r.isLocal == a.isLocal && r.maxHealth == a.maxHealth && r.attacking == a.attacking
  {
    a.(body := a.body.(x := s.x.value, y := s.y.value, flipX := s.flipX.GetOr(false),
                       anim := if Truthy(s.animation) then s.animation.value else a.body.anim))
  }

  /** `handleRemotePlayerUpdate({playerId, playerData})`: ignores the own id
      and snapshots without a position; otherwise creates the proxy if it is
      new and updates it. */
  function HandleRemotePlayerUpdate(g: GameState, id: Option<string>, s: Option<Snapshot>): (r: GameState)
    ensures id == g.localId || !Positioned(s) ==> r == g
    ensures r == g.(remotePlayers := r.remotePlayers)
    ensures id != g.localId && Positioned(s) ==>
      r.remotePlayers == Set(g.remotePlayers, id, UpdateRemotePlayer(
        if Has(g.remotePlayers, id) then Get(g.remotePlayers, id).value
        else CreateRemotePlayer(g, id, s.value.x.value, s.value.y.value), s.value))
  {
    if id == g.localId then g
    else if !Positioned(s) then g
    else
      var existing := Get(g.remotePlayers, id);
      var proxy := if existing.Some? then existing.value else CreateRemotePlayer(g, id, s.value.x.value, s.value.y.value);
      g.(remotePlayers := Set(g.remotePlayers, id, UpdateRemotePlayer(proxy, s.value)))
  }

  /** A snapshot from another player leaves exactly that player's proxy
      updated: it is in the map afterwards, at the snapshot's
      position, and no other proxy changes. A new proxy's sprite comes from
      the registry. */
  lemma SnapshotUpdatesOneProxy(g: GameState, id: Option<string>, s: Snapshot)
    requires Valid(g)
    requires id != g.localId && s.x.Some? && s.y.Some?
    ensures var m := ToMap(HandleRemotePlayerUpdate(g, id, Some(s)).remotePlayers);
      && id in m
      && m[id].body.x == s.x.value && m[id].body.y == s.y.value
      && (id !in ToMap(g.remotePlayers) ==> m[id].body.sprite == OrStr(g.registrySprite, PlayerEntity.DefaultSprite) && m[id].body.health == 10)
      && (id in ToMap(g.remotePlayers) ==> m[id].body.health == ToMap(g.remotePlayers)[id].body.health)
      && (forall k :: k != id ==> (k in m <==> k in ToMap(g.remotePlayers)))
      && (forall k :: k != id && k in m ==> m[k] == ToMap(g.remotePlayers)[k])
  {
    GetAgreesWithView(g.remotePlayers, id);
    var existing := Get(g.remotePlayers, id);
    var proxy := if existing.Some? then existing.value else CreateRemotePlayer(g, id, s.x.value, s.y.value);
    SetSpec(g.remotePlayers, id, UpdateRemotePlayer(proxy, s));
  }

  /** `handlePlayerLeftGame(data)`: destroys and forgets that player's proxy;
      an unknown id changes nothing. */
  function HandlePlayerLeftGame(g: GameState, id: Option<string>): (r: GameState)
    ensures !Has(g.remotePlayers, id) ==> r == g
    ensures Has(g.remotePlayers, id) ==> r == g.(remotePlayers := Delete(g.remotePlayers, id))
  {
    var existing := Get(g.remotePlayers, id);
    if existing.Some? then g.(remotePlayers := Delete(g.remotePlayers, id)) else g
  }

  /** A departure removes exactly the departing id; every other proxy
      stays. */
  lemma LeaveRemovesOne(g: GameState, id: Option<string>)
    requires Valid(g)
    ensures ToMap(HandlePlayerLeftGame(g, id).remotePlayers) == ToMap(g.remotePlayers) - {id}
    ensures HandlePlayerLeftGame(g, id) == g.(remotePlayers := HandlePlayerLeftGame(g, id).remotePlayers)
  {
    DeleteSpec(g.remotePlayers, id);
    GetAgreesWithView(g.remotePlayers, id);
  }

  /** The `actionData` of a remote action; absent fields are `None`. */
  datatype ActionData = ActionData(
    direction: Option<string>, damage: Option<int>,
    width: Option<real>, height: Option<real>,
    offsetY: Option<real>, duration: Option<int>,
    singleUse: bool,
    health: Option<int>, maxHealth: Option<int>)

  const NoActionData := ActionData(None, None, None, None, None, None, false, None, None)

  datatype ActionMessage = ActionMessage(playerId: Option<string>, action: Option<string>, actionData: Option<ActionData>)

  /** The result of a remote action: the new state, the arguments of an
      `updateHealthUI` call if one is made, and whether the handler ends in
      an exception. */
  datatype Outcome = Outcome(state: GameState, healthUi: Option<(int, Option<int>)>, threw: bool)

  /** The attack configuration `handleRemoteKick` passes on: `||` defaults
      for damage, sizes and duration, `??` for the vertical offset. */
  function KickConfig(ad: ActionData, direction: string): (c: Combat.AttackConfig)
    ensures c.kind == Some("kick") && c.direction == Some(direction) && c.singleUse == ad.singleUse
    ensures c.damage == Some(OrInt(ad.damage, 1)) && c.duration == Some(OrInt(ad.duration, 180))
    ensures c.width == Some(OrReal(ad.width, 54.0)) && c.height == Some(OrReal(ad.height, 40.0))
    ensures c.offsetY == Some(Coalesce(ad.offsetY, -10.0))
    ensures c.offsetX.None? && c.x.None? && c.y.None?
  {
    Combat.AttackConfig(
      Some(OrReal(ad.width, 54.0)), Some(OrReal(ad.height, 40.0)),
      Some(OrInt(ad.duration, 180)), Some(OrInt(ad.damage, 1)),
      Some(direction), None, Some(Coalesce(ad.offsetY, -10.0)), None, None,
      Some("kick"), ad.singleUse)
  }

  /** The direction a kick is performed in: the message's, or the proxy's
      current facing. */
  function KickDirection(a: Avatar, ad: ActionData): string {
    OrStr(ad.direction, if a.body.right then "right" else "left")
  }

  /** What a kick does to the kicking proxy: it turns to face `"right"` or
      `"left"` (any other direction leaves the facing alone) and is marked
      attacking; its animation and everything else stay. */
  function TurnForKick(a: Avatar, ad: ActionData): (r: Avatar)
    ensures KickDirection(a, ad) == "right" ==> r.body.right && r.body.flipX
    ensures KickDirection(a, ad) == "left" ==> !r.body.right && !r.body.flipX
    ensures KickDirection(a, ad) != "right" && KickDirection(a, ad) != "left" ==> r.body == a.body
    ensures !Truthy(ad.direction) ==> r.body.right == a.body.right
    ensures r.attacking
    ensures r == a.(attacking := true, body := a.body.(right := r.body.right, flipX := r.body.flipX))
  {
    var direction := KickDirection(a, ad);
    var right := if direction == "right" then true else if direction == "left" then false else a.body.right;
    var flipX := if direction == "right" then true else if direction == "left" then false else a.body.flipX;
    a.(attacking := true, body := a.body.(right := right, flipX := flipX))
  }

  /** `handleRemoteKick(playerId, actionData)`: for a known, living proxy,
      turn it to the kick's direction, spawn a kick zone from it, and mark
      it attacking. The handler then reads `animationKeys.attack`, which no
      player object defines, and throws, so the animation does not change. */
  function HandleRemoteKick(g: GameState, id: Option<string>, ad: ActionData): (o: Outcome)
    ensures o.healthUi.None?
    ensures var p := Get(g.remotePlayers, id);
      p.None? || p.value.body.dead ==> o == Outcome(g, None, false)
    ensures var p := Get(g.remotePlayers, id);
      p.Some? && !p.value.body.dead ==>
        && o.threw
        && o.state.remotePlayers == Set(g.remotePlayers, id, TurnForKick(p.value, ad))
        && |o.state.attacks| == |g.attacks| + (if g.hasAttackGroup then 1 else 0)
        && o.state.attacks[..|g.attacks|] == g.attacks
        && o.state == g.(remotePlayers := o.state.remotePlayers, attacks := o.state.attacks)
  {
    var found := Get(g.remotePlayers, id);
    if found.None? || found.value.body.dead then Outcome(g, None, false)
    else
      var a := TurnForKick(found.value, ad);
      var attacker := Combat.Attacker(a.body.x, a.body.y, a.body.right, Some(g.proxyWidth), None, a.playerId);
      var zone := Combat.SpawnPlayerAttack(Some(attacker), g.hasAttackGroup, KickConfig(ad, KickDirection(found.value, ad)));
      var spawned := if zone.Some? then [zone.value] else [];
      Outcome(g.(remotePlayers := Set(g.remotePlayers, id, a), attacks := g.attacks + spawned), None, true)
  }

  /** A kick with no data spawns a 54 by 40 zone lasting 180 ms, dealing 1
      damage, 10 above the proxy. `||` replaces a zero damage or width by the
      default, while `??` keeps an explicit zero vertical offset. */
  lemma KickDefaults(ad: ActionData, direction: string)
    ensures var c := KickConfig(NoActionData, direction);
      c.width == Some(54.0) && c.height == Some(40.0) && c.duration == Some(180)
      && c.damage == Some(1) && c.offsetY == Some(-10.0) && !c.singleUse
    ensures ad.damage == Some(0) ==> KickConfig(ad, direction).damage == Some(1)
    ensures ad.width == Some(0.0) ==> KickConfig(ad, direction).width == Some(54.0)
    ensures ad.offsetY == Some(0.0) ==> KickConfig(ad, direction).offsetY == Some(0.0)
  {
  }

  /** The zone a kick spawns: owned by the proxy's id, carrying the kick's
      damage, size, duration and vertical offset, with an empty hit set. */
  lemma KickSpawnsZone(g: GameState, id: Option<string>, ad: ActionData)
    requires Valid(g) && g.hasAttackGroup
    requires Get(g.remotePlayers, id).Some? && !Get(g.remotePlayers, id).value.body.dead
    ensures var o := HandleRemoteKick(g, id, ad);
      var z := o.state.attacks[|g.attacks|];
      && z.kind == "kick" && z.damage == OrInt(ad.damage, 1) && z.hitTargets == {} && z.active
      && z.ownerId == (if Truthy(id) then id else None)
      && z.offsetY == Coalesce(ad.offsetY, -10.0)
      && z.width == OrReal(ad.width, 54.0) && z.duration == OrInt(ad.duration, 180)
      && z.x == Get(g.remotePlayers, id).value.body.x + z.offsetX
      && z.y == Get(g.remotePlayers, id).value.body.y + z.offsetY
  {
    GetAgreesWithView(g.remotePlayers, id);
    var a := Get(g.remotePlayers, id).value;
    assert a.playerId == id;
  }

  /** A kick from a known, living proxy turns it and marks it attacking;
      nothing else in the map changes. */
  lemma KickTurnsProxy(g: GameState, id: Option<string>, ad: ActionData)
    requires Valid(g)
    requires Get(g.remotePlayers, id).Some? && !Get(g.remotePlayers, id).value.body.dead
    ensures var m := ToMap(HandleRemoteKick(g, id, ad).state.remotePlayers);
      var before := ToMap(g.remotePlayers);
      && id in before
      && m == before[id := TurnForKick(before[id], ad)]
      && m[id].attacking && m[id].body.anim == before[id].body.anim
  {
    GetAgreesWithView(g.remotePlayers, id);
    SetSpec(g.remotePlayers, id, TurnForKick(Get(g.remotePlayers, id).value, ad));
  }

  /** A kick is thrown from where the proxy's latest snapshot put it: after a
      snapshot, the kick zone sits at the snapshot's position plus the zone's
      offsets. */
  lemma KickFollowsLatestSnapshot(g: GameState, id: Option<string>, s: Snapshot, ad: ActionData)
    requires Valid(g) && g.hasAttackGroup
    requires id != g.localId && s.x.Some? && s.y.Some?
    requires Get(g.remotePlayers, id).None? || !Get(g.remotePlayers, id).value.body.dead
    ensures var o := HandleRemoteKick(HandleRemotePlayerUpdate(g, id, Some(s)), id, ad);
      && |o.state.attacks| == |g.attacks| + 1
      && o.state.attacks[|g.attacks|].x == s.x.value + o.state.attacks[|g.attacks|].offsetX
      && o.state.attacks[|g.attacks|].y == s.y.value + o.state.attacks[|g.attacks|].offsetY
  {
    var g1 := HandleRemotePlayerUpdate(g, id, Some(s));
    var existing := Get(g.remotePlayers, id);
    var proxy := if existing.Some? then existing.value else CreateRemotePlayer(g, id, s.x.value, s.y.value);
    var a := UpdateRemotePlayer(proxy, s);
    assert g1.remotePlayers == Set(g.remotePlayers, id, a);
    SetView(g.remotePlayers, id, a);
    GetAgreesWithView(g1.remotePlayers, id);
    assert Get(g1.remotePlayers, id) == Some(a);
  }

  /** The health rule of `applyRemoteHealthUpdate` on one player object: a
      numeric `maxHealth` is copied, a numeric `health` is clamped to
      `[0, maxHealth || 1]`, and a local player's text is refreshed. */
  function ApplyHealth(a: Avatar, ad: ActionData): (r: (Avatar, Option<(int, Option<int>)>))
    ensures r.0.maxHealth == (if ad.maxHealth.Some? then ad.maxHealth else a.maxHealth)
    ensures ad.health.None? ==> r.0.body.health == a.body.health
    ensures ad.health.Some? ==> r.0.body.health == Clamp(ad.health.value, 0, OrInt(r.0.maxHealth, 1))
    ensures r.0 == a.(maxHealth := r.0.maxHealth, body := a.body.(health := r.0.body.health))
    ensures r.1.Some? <==> a.isLocal
    ensures r.1.Some? ==> r.1.value == (r.0.body.health, r.0.maxHealth)
  {
    var maxHealth := if ad.maxHealth.Some? then ad.maxHealth else a.maxHealth;
    var health := if ad.health.Some? then Clamp(ad.health.value, 0, OrInt(maxHealth, 1)) else a.body.health;
    var a' := a.(maxHealth := maxHealth, body := a.body.(health := health));
    (a', if a.isLocal then Some((health, maxHealth)) else None)
  }

  /** A numeric health never leaves `[0, maxHealth || 1]` when that bound is
      not negative, and an update with neither field changes nothing. */
  lemma HealthStaysInRange(a: Avatar, ad: ActionData)
    requires ad.health.Some?
    ensures var b := ApplyHealth(a, ad).0;
      0 <= b.body.health
      && (OrInt(b.maxHealth, 1) >= 0 ==> b.body.health <= OrInt(b.maxHealth, 1))
    ensures ApplyHealth(a, ad.(health := None, maxHealth := None)).0 == a
  {
    var b := ApplyHealth(a, ad).0;
    ClampBounds(ad.health.value, 0, OrInt(b.maxHealth, 1));
  }

  /** `applyRemoteHealthUpdate(playerId, actionData)`: applies the rule to
      the proxy with that id, or to the local player when the id is the own
      id; an empty or unknown id changes nothing. */
  function ApplyRemoteHealthUpdate(g: GameState, id: Option<string>, ad: ActionData): (o: Outcome)
    ensures !o.threw
    ensures !Truthy(id) ==> o == Outcome(g, None, false)
    ensures Truthy(id) && Get(g.remotePlayers, id).Some? ==>
      var (a, ui) := ApplyHealth(Get(g.remotePlayers, id).value, ad);
      o == Outcome(g.(remotePlayers := Set(g.remotePlayers, id, a)), ui, false)
    ensures Truthy(id) && Get(g.remotePlayers, id).None? && g.hasNetwork && id == g.localId && g.local.Some? ==>
      var (a, ui) := ApplyHealth(g.local.value, ad);
      o == Outcome(g.(local := Some(a)), ui, false)
    ensures Get(g.remotePlayers, id).None? && !(g.hasNetwork && id == g.localId && g.local.Some?) ==> o == Outcome(g, None, false)
  {
    if !Truthy(id) then Outcome(g, None, false)
    else
      var remote := Get(g.remotePlayers, id);
      if remote.Some? then
        var (a, ui) := ApplyHealth(remote.value, ad);
        Outcome(g.(remotePlayers := Set(g.remotePlayers, id, a)), ui, false)
      else if g.hasNetwork && id == g.localId && g.local.Some? then
        var (a, ui) := ApplyHealth(g.local.value, ad);
        Outcome(g.(local := Some(a)), ui, false)
      else Outcome(g, None, false)
  }

  /** `handleRemotePlayerAction(data)`: drops messages without an action and
      the own player's echoes, and dispatches `kick` and `healthUpdate`;
      other actions are ignored. */
  function HandleRemotePlayerAction(g: GameState, data: Option<ActionMessage>): (o: Outcome)
    ensures data.None? || !Truthy(data.value.action) ==> o == Outcome(g, None, false)
    ensures data.Some? && g.hasNetwork && data.value.playerId == g.localId ==> o == Outcome(g, None, false)
    ensures data.Some? && data.value.action.Some? && data.value.action.value !in {"kick", "healthUpdate"} ==> o == Outcome(g, None, false)
    ensures data.Some? && !(g.hasNetwork && data.value.playerId == g.localId) && data.value.action == Some("kick") ==>
      o == HandleRemoteKick(g, data.value.playerId, data.value.actionData.GetOr(NoActionData))
    ensures data.Some? && !(g.hasNetwork && data.value.playerId == g.localId) && data.value.action == Some("healthUpdate") ==>
      o == ApplyRemoteHealthUpdate(g, data.value.playerId, data.value.actionData.GetOr(NoActionData))
  {
    if data.None? || !Truthy(data.value.action) then Outcome(g, None, false)
    else
      var m := data.value;
      if g.hasNetwork && m.playerId == g.localId then Outcome(g, None, false)
      else if m.action.value == "kick" then HandleRemoteKick(g, m.playerId, m.actionData.GetOr(NoActionData))
      else if m.action.value == "healthUpdate" then ApplyRemoteHealthUpdate(g, m.playerId, m.actionData.GetOr(NoActionData))
      else Outcome(g, None, false)
  }

  /** With a network manager, a remote action never touches the local
      player: echoes of the own id are dropped before dispatch. */
  lemma RemoteActionsSpareLocalPlayer(g: GameState, data: Option<ActionMessage>)
    requires g.hasNetwork
    ensures HandleRemotePlayerAction(g, data).state.local == g.local
  {
  }

  /** Everything that reaches the replication state from the network. */
  datatype Remote =
    | PlayerUpdate(updateId: Option<string>, snapshot: Option<Snapshot>)
    | PlayerLeftGame(leftId: Option<string>)
    | PlayerAction(message: Option<ActionMessage>)

  function OnRemote(g: GameState, e: Remote): GameState {
    match e
    case PlayerUpdate(id, s) => HandleRemotePlayerUpdate(g, id, s)
    case PlayerLeftGame(id) => HandlePlayerLeftGame(g, id)
    case PlayerAction(m) => HandleRemotePlayerAction(g, m).state
  }

  lemma SetKeepsValid(g: GameState, id: Option<string>, a: Avatar)
    requires Valid(g) && id != g.localId && a.playerId == id
    ensures Valid(g.(remotePlayers := Set(g.remotePlayers, id, a)))
  {
    SetSpec(g.remotePlayers, id, a);
  }

  /** Every remote event keeps the map consistent: unique keys, no proxy for
      the own id, each proxy under its own id. */
  lemma {:induction false} RemoteKeepsValid(g: GameState, e: Remote)
    requires Valid(g)
    ensures Valid(OnRemote(g, e))
    ensures OnRemote(g, e).localId == g.localId
  {
    match e
    case PlayerUpdate(id, s) =>
      if id != g.localId && Positioned(s) {
        GetAgreesWithView(g.remotePlayers, id);
        var existing := Get(g.remotePlayers, id);
        var proxy := if existing.Some? then existing.value else CreateRemotePlayer(g, id, s.value.x.value, s.value.y.value);
        SetKeepsValid(g, id, UpdateRemotePlayer(proxy, s.value));
      }
    case PlayerLeftGame(id) =>
      LeaveRemovesOne(g, id);
      DeleteSpec(g.remotePlayers, id);
    case PlayerAction(m) =>
      if m.Some? && Truthy(m.value.action) && !(g.hasNetwork && m.value.playerId == g.localId) {
        var id := m.value.playerId;
        var ad := m.value.actionData.GetOr(NoActionData);
        GetAgreesWithView(g.remotePlayers, id);
        var found := Get(g.remotePlayers, id);
        if found.Some? {
          assert id in ToMap(g.remotePlayers);
          var a := found.value;
          if m.value.action.value == "kick" && !a.body.dead {
            SetKeepsValid(g, id, TurnForKick(a, ad));
          } else if m.value.action.value == "healthUpdate" && Truthy(id) {
            SetKeepsValid(g, id, ApplyHealth(a, ad).0);
          }
        }
      }
  }
}
