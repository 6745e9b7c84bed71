/** Player attacks in `src/scenes/game.js`: building an attack zone from a
    configuration with defaults (`spawnPlayerAttack`) and reconciling one
    overlap of a zone with a target (`handlePlayerAttackHit`). Each zone keeps
    the set of target ids it has already damaged; a single-use zone is torn
    down by its first applied hit. The physics overlap, the 16 ms follow timer
    and the expiry timer become explicit events. */
module Combat {
  import opened Js

  /** The fields of an attack configuration object; absent fields are `None`. */
  datatype AttackConfig = AttackConfig(
    width: Option<real>, height: Option<real>,
    duration: Option<int>, damage: Option<int>,
    direction: Option<string>,
    offsetX: Option<real>, offsetY: Option<real>,
    x: Option<real>, y: Option<real>,
    kind: Option<string>,
    singleUse: bool)

  /** The configuration with every field absent (`attackConfig = {}`). */
  const EmptyConfig := AttackConfig(None, None, None, None, None, None, None, None, None, None, false)

  /** What `spawnPlayerAttack` reads of the attacking player. */
  datatype Attacker = Attacker(x: real, y: real, right: bool, displayWidth: Option<real>, width: Option<real>, playerId: Option<string>)

  const DefaultWidth: real := 48.0
  const DefaultHeight: real := 32.0
  const DefaultDuration := 200
  const DefaultDamage := 1
  const DefaultPlayerWidth: real := 48.0

  /** An attack zone. `offsetX`/`offsetY` are the offsets captured at spawn
      that the follow timer keeps relative to the owner; `ticking` says whether
      that timer still runs. */
  datatype Zone = Zone(
    x: real, y: real, width: real, height: real,
    offsetX: real, offsetY: real,
    duration: int,
    ownerId: Option<string>,
    damage: int,
    kind: string,
    hitTargets: set<string>,
    singleUse: bool,
    active: bool,
    ticking: bool)

  /** The `||` chain of defaults for the facing: an explicit direction, or the
      attacker's own facing. */
  function Direction(a: Attacker, cfg: AttackConfig): string {
    OrStr(cfg.direction, if a.right then "right" else "left")
  }

  /** The default horizontal offset: half the attacker's width plus half the
      zone's width, in front of the attacker. */
  function DefaultOffsetX(a: Attacker, cfg: AttackConfig): real {
    var width := OrReal(cfg.width, DefaultWidth);
    var playerWidth := OrReal(a.displayWidth, OrReal(a.width, DefaultPlayerWidth));
    var half := playerWidth / 2.0 + width / 2.0;
    if Direction(a, cfg) != "left" then half else -half
  }

  /** `spawnPlayerAttack(player, attackConfig)`: nothing without a player or
      an attack group; otherwise a fresh, active zone whose unset fields take
      their defaults (`||` for sizes, duration, damage, kind and direction;
      `??` for offsets and position). */
  function SpawnPlayerAttack(player: Option<Attacker>, hasAttackGroup: bool, cfg: AttackConfig): (z: Option<Zone>)
    ensures z.Some? <==> player.Some? && hasAttackGroup
    ensures z.Some? ==>
      && z.value.width == OrReal(cfg.width, DefaultWidth)
      && z.value.height == OrReal(cfg.height, DefaultHeight)
      && z.value.duration == OrInt(cfg.duration, DefaultDuration)
      && z.value.damage == OrInt(cfg.damage, DefaultDamage)
      && z.value.kind == OrStr(cfg.kind, "attack")
      && z.value.singleUse == cfg.singleUse
      && z.value.hitTargets == {}
      && z.value.ownerId == (if Truthy(player.value.playerId) then player.value.playerId else None)
      && z.value.active && z.value.ticking
      && z.value.offsetX == Coalesce(cfg.offsetX, DefaultOffsetX(player.value, cfg))
      && z.value.offsetY == Coalesce(cfg.offsetY, 0.0)
      && z.value.x == Coalesce(cfg.x, player.value.x + z.value.offsetX)
      && z.value.y == Coalesce(cfg.y, player.value.y + z.value.offsetY)
  {
    if player.None? || !hasAttackGroup then None
    else
      var a := player.value;
      var offsetX := Coalesce(cfg.offsetX, DefaultOffsetX(a, cfg));
      var offsetY := Coalesce(cfg.offsetY, 0.0);
      Some(Zone(
        Coalesce(cfg.x, a.x + offsetX), Coalesce(cfg.y, a.y + offsetY),
        OrReal(cfg.width, DefaultWidth), OrReal(cfg.height, DefaultHeight),
        offsetX, offsetY,
        OrInt(cfg.duration, DefaultDuration),
        if Truthy(a.playerId) then a.playerId else None,
        OrInt(cfg.damage, DefaultDamage),
        OrStr(cfg.kind, "attack"),
        {}, cfg.singleUse, true, true))
  }

  /** With an empty configuration the zone is 48 by 32, lasts 200 ms, deals
      1 damage, and sits flush against the side the attacker faces. */
  lemma SpawnDefaults(a: Attacker)
    requires a.displayWidth.None? && a.width.None?
    ensures var z := SpawnPlayerAttack(Some(a), true, EmptyConfig).value;
      && z.width == 48.0 && z.height == 32.0 && z.duration == 200 && z.damage == 1
      && z.kind == "attack" && !z.singleUse && z.hitTargets == {}
      && z.offsetX == (if a.right then 48.0 else -48.0) && z.offsetY == 0.0
      && z.x == a.x + z.offsetX && z.y == a.y
  {
  }

  /** The facing follows the configured direction, and the default offset
      points to that side: right unless the direction is exactly `"left"`. */
  lemma FacingDecidesOffsetSign(a: Attacker, cfg: AttackConfig)
    ensures Direction(a, cfg) == "left" ==> DefaultOffsetX(a, cfg) < 0.0 || OrReal(a.displayWidth, OrReal(a.width, DefaultPlayerWidth)) + OrReal(cfg.width, DefaultWidth) <= 0.0
    ensures Direction(a, cfg) != "left" ==> DefaultOffsetX(a, cfg) > 0.0 || OrReal(a.displayWidth, OrReal(a.width, DefaultPlayerWidth)) + OrReal(cfg.width, DefaultWidth) <= 0.0
    ensures !Truthy(cfg.direction) ==> (Direction(a, cfg) != "left" <==> a.right)
  {
  }

  /** What `handlePlayerAttackHit` reads of a target: whether it is active and
      dead, whether it has a `takeDamage` method, and the four id slots. */
  datatype Target = Target(active: bool, dead: bool, canTakeDamage: bool,
                           playerId: Option<string>, name: Option<string>, uuid: Option<string>, id: Option<string>)

  /** The value of `takeDamage(n)`: whether the damage took effect, and
      whether it killed. */
  datatype DamageResult = DamageResult(applied: bool, died: bool)

  /** `playerId || name || uuid || id`. */
  function TargetId(t: Target): Option<string> {
    OrId(t.playerId, OrId(t.name, OrId(t.uuid, t.id)))
  }

  /** The result of one overlap: the zone afterwards, the damage passed to
      `takeDamage` if it was called, and whether it reported `applied`. */
  datatype Hit = Hit(zone: Zone, requested: Option<int>, applied: bool)

  /** The target is hittable by this zone: present, alive, able to take
      damage, not the zone's owner, and not already hit by the zone. */
  predicate Eligible(z: Zone, target: Option<Target>) {
    && target.Some?
    && target.value.canTakeDamage
    && target.value.active && !target.value.dead
    && !(Truthy(z.ownerId) && Truthy(TargetId(target.value)) && z.ownerId == TargetId(target.value))
    && !(Truthy(TargetId(target.value)) && TargetId(target.value).value in z.hitTargets)
  }

  /** `handlePlayerAttackHit(attack, target)`; `outcome` is what the target's
      `takeDamage` returns (`None` for `undefined`/`null`). */
  function HandlePlayerAttackHit(z: Zone, target: Option<Target>, outcome: Option<DamageResult>): (h: Hit)
    ensures h.requested.Some? <==> Eligible(z, target)
    ensures h.requested.Some? ==> h.requested.value == OrInt(Some(z.damage), 1)
    ensures h.applied <==> Eligible(z, target) && outcome.Some? && outcome.value.applied
    ensures !h.applied ==> h.zone == z
    ensures h.applied ==>
      && h.zone.hitTargets == (if Truthy(TargetId(target.value)) then z.hitTargets + {TargetId(target.value).value} else z.hitTargets)
      && h.zone.active == (z.active && !z.singleUse)
      && h.zone.ticking == (z.ticking && !(z.singleUse && z.active))
      && h.zone == z.(hitTargets := h.zone.hitTargets, active := h.zone.active, ticking := h.zone.ticking)
  {
    if target.None? || !target.value.canTakeDamage then Hit(z, None, false)
    else if !target.value.active || target.value.dead then Hit(z, None, false)
    else
      var tid := TargetId(target.value);
      if Truthy(z.ownerId) && Truthy(tid) && z.ownerId == tid then Hit(z, None, false)
      else if Truthy(tid) && tid.value in z.hitTargets then Hit(z, None, false)
      else
        var requested := OrInt(Some(z.damage), 1);
        if outcome.Some? && outcome.value.applied then
          var recorded := if Truthy(tid) then z.hitTargets + {tid.value} else z.hitTargets;
          var z' := z.(hitTargets := recorded);
          if z.singleUse && z.active then Hit(z'.(active := false, ticking := false), Some(requested), true)
          else Hit(z', Some(requested), true)
        else Hit(z, Some(requested), false)
  }

  /** What can happen to a zone: an overlap with a target (delivered by the
      physics world only while the zone is active), a tick of the follow timer
      with the owner's position if the owner is still active, or the expiry
      timer. */
  datatype ZoneEvent =
    | Overlap(target: Option<Target>, outcome: Option<DamageResult>)
    | Tick(owner: Option<(real, real)>)
    | Expire

  /** One event on a zone; returns the zone and the overlap's `Hit` if an
      overlap was delivered. */
  function OnZoneEvent(z: Zone, e: ZoneEvent): (r: (Zone, Option<Hit>))
    ensures r.1.Some? <==> e.Overlap? && z.active
    ensures r.1.Some? ==> r.0 == r.1.value.zone
    ensures r.0.hitTargets >= z.hitTargets
    ensures !z.active ==> !r.0.active
    ensures r.0.singleUse == z.singleUse && r.0.ownerId == z.ownerId
    ensures e.Overlap? && !z.active ==> r.0 == z
    ensures e.Tick? && z.active && e.owner.Some? ==>
      r.0 == z.(x := e.owner.value.0 + z.offsetX, y := e.owner.value.1 + z.offsetY)
    ensures e.Tick? && z.active && e.owner.None? ==> r.0 == z.(active := false, ticking := false)
    ensures e.Tick? && !z.active ==> r.0 == z.(ticking := false)
    ensures e.Expire? ==> !r.0.active && !(z.active && r.0.ticking)
    ensures e.Expire? && z.active ==> r.0 == z.(active := false, ticking := false)
    ensures e.Expire? && !z.active ==> r.0 == z
  {
    match e
    case Overlap(t, o) =>
      if z.active then var h := HandlePlayerAttackHit(z, t, o); (h.zone, Some(h)) else (z, None)
    case Tick(owner) =>
      if !z.active then (z.(ticking := false), None)
      else if owner.None? then (z.(ticking := false, active := false), None)
      else (z.(x := owner.value.0 + z.offsetX, y := owner.value.1 + z.offsetY), None)
    case Expire =>
      if z.active then (z.(ticking := false, active := false), None) else (z, None)
  }

  /** Whether an event produced an applied hit on a target whose id is `id`. */
  predicate AppliedOn(z: Zone, e: ZoneEvent, id: string) {
    var h := OnZoneEvent(z, e).1;
    h.Some? && h.value.applied && TargetId(e.target.value) == Some(id)
  }

  /** Feeds events to a zone; returns the final zone, the number of applied
      hits, and the events that applied them. */
  function RunZone(z: Zone, evs: seq<ZoneEvent>): (r: (Zone, nat))
    decreases |evs|
  {
    if |evs| == 0 then (z, 0)
    else
      var (z', h) := OnZoneEvent(z, evs[0]);
      var (last, n) := RunZone(z', evs[1..]);
      (last, n + if h.Some? && h.value.applied then 1 else 0)
  }

  /** How many events of the run applied damage to the target with id `id`. */
  function AppliedCount(z: Zone, evs: seq<ZoneEvent>, id: string): nat
    decreases |evs|
  {
    if |evs| == 0 then 0
    else AppliedCount(OnZoneEvent(z, evs[0]).0, evs[1..], id) + if AppliedOn(z, evs[0], id) then 1 else 0
  }

  /** An id the zone has recorded is never damaged again by it; any other
      (non-empty) id at most once. The recorded set only grows. */
  lemma {:induction false} AtMostOnePerTarget(z: Zone, evs: seq<ZoneEvent>, id: string)
    requires id != ""
    ensures AppliedCount(z, evs, id) <= (if id in z.hitTargets then 0 else 1)
    ensures z.hitTargets <= RunZone(z, evs).0.hitTargets
    decreases |evs|
  {
    if |evs| > 0 {
      var z' := OnZoneEvent(z, evs[0]).0;
      AtMostOnePerTarget(z', evs[1..], id);
      if AppliedOn(z, evs[0], id) {
        assert id in z'.hitTargets;
      }
    }
  }

  /** A single-use zone applies at most one hit over its whole life, and none
      once it has been torn down. */
  lemma {:induction false} SingleUseAppliesOnce(z: Zone, evs: seq<ZoneEvent>)
    requires z.singleUse
    ensures RunZone(z, evs).1 <= (if z.active then 1 else 0)
    decreases |evs|
  {
    if |evs| > 0 {
      var (z', h) := OnZoneEvent(z, evs[0]);
      SingleUseAppliesOnce(z', evs[1..]);
    }
  }

  /** A target with no truthy id is not recorded, so a reusable zone damages
      it on every overlap. */
  lemma AnonymousTargetHitRepeatedly(z: Zone, t: Target)
    requires z.active && !z.singleUse
    requires t.active && !t.dead && t.canTakeDamage && !Truthy(TargetId(t))
    ensures var e := Overlap(Some(t), Some(DamageResult(true, false)));
      RunZone(z, [e, e]).1 == 2
  {
    var e := Overlap(Some(t), Some(DamageResult(true, false)));
    var h := HandlePlayerAttackHit(z, Some(t), Some(DamageResult(true, false)));
    assert h.applied && h.zone == z;
    assert OnZoneEvent(z, e) == (z, Some(h));
    assert [e, e][1..] == [e];
    assert [e][1..] == [];
    assert RunZone(z, [e]).1 == 1;
  }
}
