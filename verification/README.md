# Phaser multiplayer game — state rules in Dafny

This project models the state logic of a small Phaser 3 game in which up to
four players share a room. The game code is single-threaded and driven by
callbacks: socket messages, timers, physics overlaps and key presses. Here
each callback is a pure function. It takes the current state and the event
and returns the new state, plus whatever the callback emits: messages to the
server, notices to the scene, spawned objects, sounds. Timers and sockets
become explicit events.

The model has one module per component:

- `Js` (`js.dfy`): the JavaScript conventions the code relies on.
  - Optional values stand for `undefined`/`null`.
  - `||` treats `0` and `""` as missing; `??` keeps them.
  - A promise settles once.
  - Phaser's `Clamp`.
- `OrderedMap` (`ordered_map.dfy`): JavaScript `Map` as an insertion-ordered
  list of entries, together with its view as a mathematical map. It is used
  for the room membership and for the remote-player proxies.
- `Door` (`door.dfy`): the one-shot door latch.
- `Splash` (`splash.dfy`): character selection.
  - The roster and the unlock rules.
  - Cyclic left/right selection that only lands on unlocked characters.
  - The highlight rule and the hand-off of the chosen sprite.
- `PlayerEntity` (`player.dfy`): the player entity.
  - Constructor defaults and the per-sprite animation frame table.
  - Steering, with diagonal normalisation, and the walk/idle choice.
  - Hammer blows, building, turning, animation completion.
  - `hit`/`die` and prizes.
- `Session` (`network_manager.dfy`): the network manager as a session record.
  - The session is `isConnected`, `isHost`, `roomId`, `playerId` and the
    membership.
  - `connect` and the room-list request are promises that race against
    timers.
  - Includes the server-event handlers and the guarded client operations.
- `Combat` (`combat.dfy`): attack zones.
  - Configuration defaults and the hit-reconciliation rule: alive, not the
    owner, not already hit.
  - The hit set and single-use teardown.
  - The follow and expiry timers as events.
- `GameScene` (`game.dfy`): the game scene's state rules.
  - The game-mode flag, the local player's id, doors, and foes touching the
    player.
  - The health text.
  - Replication: the `remotePlayers` map updated by snapshots, departures,
    and `kick` and `healthUpdate` actions.

Every source path below is relative to the repository root. Where the code
and its documentation disagree, the model follows the code:

- A remote proxy's sprite is the local registry's `selectedPlayer`, not the
  sprite named in the snapshot. The `Player` constructor takes only
  `(scene, x, y, health)` and ignores the extra arguments
  `createRemotePlayer` passes.
- `roomJoined` without `players` throws inside `Object.entries` after it has
  already written `roomId` and `isHost`. The model keeps that partial update
  and raises no scene notice.
- `handleRemoteKick` sets `attacking` and then reads
  `remotePlayer.animationKeys.attack`. No player object defines
  `animationKeys`, so the handler throws at that point and the proxy's
  animation does not change. The kick zone has already been spawned by then.
- `hit()` tests for health exactly `0`. A living player already at zero or
  less goes further negative and is never marked dead
  (`PlayerEntity.HitBelowZeroDoesNotKill`).
- A reusable attack zone records only targets that have a truthy id. A target
  with no id is damaged on every overlap
  (`Combat.AnonymousTargetHitRepeatedly`).

## Model

| member | source | states |
|---|---|---|
| `Js.ClampBounds` | src/scenes/game.js:1074 | Phaser's clamp never goes below its lower bound, stays in `[lo, hi]` when that interval is non-empty, and leaves in-range values alone |
| `Js.OrVersusCoalesceOnZero` | src/scenes/game.js:937-942 | JavaScript `or` replaces an explicit `0` by the default while `??` keeps it |
| `OrderedMap.Values` | src/network/NetworkManager.js:307 | the values of a map in insertion order, one per entry |
| `OrderedMap.GetAgreesWithView` | src/scenes/game.js:820 | `get` finds a key exactly when the key is in the map, and returns the value the map holds for it |
| `OrderedMap.SetSpec` | src/network/NetworkManager.js:88 | `set` writes exactly one key (all other keys keep their values), keeps keys unique, and grows the map only for a new key |
| `OrderedMap.DeleteSpec` | src/network/NetworkManager.js:94 | `delete` removes exactly the one key, keeps keys unique, and leaves a map without that key unchanged |
| `OrderedMap.SizeIsKeyCount` | src/network/NetworkManager.js:306 | with unique keys, `size` is the number of distinct keys |
| `OrderedMap.FromEntriesSpec` | src/network/NetworkManager.js:74 | `new Map(entries)` has unique keys, they are exactly the keys listed, and each key maps to the value of its last listed entry |
| `Door.NewDoor` | src/gameobjects/door.js:2-11 | a new door keeps its target, starts unlatched and hidden |
| `Door.Activate` | src/gameobjects/door.js:19-25 | fires iff the latch is clear and the target is not null; firing sets the latch and changes nothing else, and not firing changes nothing |
| `Door.Reset` | src/gameobjects/door.js:28-30 | clears the latch and keeps target and visibility |
| `Door.ToggleDebugVisibility` | src/gameobjects/door.js:14-16 | flips visibility and nothing else |
| `Door.ActivatesAtMostOnce` | src/gameobjects/door.js:19-25 | over any run of events without a reset the door fires at most once, and a latched door never fires |
| `Door.NullTargetNeverOpens` | src/gameobjects/door.js:20 | a door with a null target never fires and its latch never gets set, whatever happens to it |
| `Door.ResetRearms` | src/gameobjects/door.js:10-30 | after `reset`, and on a new door, `activate` with a target succeeds, while a second `activate` fails |
| `Door.ToggleTwice` | src/gameobjects/door.js:14-16 | two toggles restore the door |
| `Splash.CheckUnlockedPlayers` | src/scenes/splash.js:300-317 | characters 1, 2 and 3 unlock on 3 levels, 50 coins and the secret area respectively (absent values read as 0/false); nothing is re-locked; other characters, and every character's name, key and unlock condition, are untouched |
| `Splash.Create` | src/scenes/splash.js:17-27 | a fresh scene selects character 0, which is unlocked |
| `Splash.UnlockConditions` | src/scenes/splash.js:18-24 | on the shipped roster: 0 always unlocked, 1/2/3 iff their thresholds, 4 never |
| `Splash.Neighbour` | src/scenes/splash.js:53 | `(i + d + n) % n` for `d` in {-1, 1} lies in `[0, n)` and is the cyclic neighbour |
| `Splash.ShowUnlockCondition` | src/scenes/splash.js:322-330 | shows nothing for an unlocked character and that character's own condition otherwise |
| `Splash.ChangePlayer` | src/scenes/splash.js:52-64 | moves to the neighbour iff it is unlocked; a locked neighbour leaves the scene unchanged and shows its condition |
| `Splash.ChangePlayerKeepsValid` | src/scenes/splash.js:55-56 | the selection stays on an unlocked character after one key press |
| `Splash.Navigate` | src/scenes/splash.js:41-50 | a run of presses never changes the roster and keeps the index in range |
| `Splash.NavigateKeepsValid` | src/scenes/splash.js:41-64 | however long the run of presses, the selection names an unlocked character |
| `Splash.OnlyDefaultUnlockedStaysPut` | src/scenes/splash.js:52-63 | with only character 0 unlocked, no key press moves the selection |
| `Splash.ExactlySelectedHighlighted` | src/scenes/splash.js:266-295 | in a consistent scene exactly the selected character gets the gold frame and the gold name tint |
| `Splash.StartGame` | src/scenes/splash.js:66-76 | publishes the selected character's key and starts stage 0 through the transition scene with the game as next scene |
| `Splash.LaunchedSpriteIsUnlocked` | src/scenes/splash.js:66-69 | whatever the menu input, the published sprite is one of the four sprite keys and the selection is unlocked |
| `PlayerEntity.GetAnimationConfig` | src/gameobjects/player.js:133-181 | every sheet's six animations run over non-empty, non-negative frame ranges |
| `PlayerEntity.UnknownSpriteFallsBack` | src/gameobjects/player.js:133-180 | an unknown sprite gets the `vanoSprite` table; the known sprites' tables are pairwise different |
| `PlayerEntity.NewPlayer` | src/gameobjects/player.js:6-46 | sprite from the registry or `vanoSprite`; given position; health as given, 10 when omitted; alive, facing right, walk 200, jump -400, no power-ups |
| `PlayerEntity.HammerBlow` | src/gameobjects/player.js:302-310 | sets building and the hammer animation; the blow is 32 ahead on the facing side, square, 128 with Mjolnir and 32 without |
| `PlayerEntity.BuildBlock` | src/gameobjects/player.js:275-285 | sets building and the build animation; the brick is 64 ahead on the facing side, raised by 128 iff the jump velocity is not -400 |
| `PlayerEntity.Update` | src/gameobjects/player.js:187-253 | a dead player is untouched; otherwise the player is steered and only `building` and the animation change beyond steering; Z spawns the hammer blow of the steered player first, X the brick of the player after that blow; X leaves the build animation, Z alone the hammer animation |
| `PlayerEntity.ActionHeldAcrossFrames` | src/gameobjects/player.js:225-246 | an action started in one frame is still playing after a following frame of plain steering, which spawns nothing |
| `PlayerEntity.Turn` | src/gameobjects/player.js:315-317 | negates `right` and changes nothing else |
| `PlayerEntity.TurnTwice` | src/gameobjects/player.js:315-317 | two turns are the identity |
| `PlayerEntity.AnimationComplete` | src/gameobjects/player.js:322-331 | the end of hammer/build clears building and falls back to jump or idle; the end of `playerground` falls back to idle; any other key changes nothing |
| `PlayerEntity.Die` | src/gameobjects/player.js:348-354 | dead, death animation, body frozen, restart requested, and no other field changes |
| `PlayerEntity.Hit` | src/gameobjects/player.js:336-343 | health drops by exactly 1; dead iff already dead or health was exactly 1; restart requested iff health was exactly 1; the body is disabled and frozen only on that last hit, and nothing but health, animation, body flags and `dead` changes |
| `PlayerEntity.DiesOnExactlyTheLastHit` | src/gameobjects/player.js:336-354 | a living player with health `h >= 1` loses one health per hit and is dead after `n` hits iff `n >= h` |
| `PlayerEntity.HitsKeepDead` | src/gameobjects/player.js:336-343 | nothing revives a dead player, and each hit still costs one health |
| `PlayerEntity.HitBelowZeroDoesNotKill` | src/gameobjects/player.js:340 | a living player at zero or less health is not killed by a hit |
| `PlayerEntity.ApplyPrize` | src/gameobjects/player.js:359-388 | speed sets walk 330, hammer sets Mjolnir, boots set jump -600, star sets invincible; nothing else changes; a coin is reported to the scene |
| `PlayerEntity.OtherPrizesChangeNothing` | src/gameobjects/player.js:385-386 | an unrecognised prize leaves the player as it was |
| `PlayerEntity.PrizeIdempotent` | src/gameobjects/player.js:359-388 | picking the same prize twice equals picking it once |
| `PlayerEntity.PrizesCommute` | src/gameobjects/player.js:359-388 | two prizes may be picked in either order |
| `PlayerEntity.PrizesChangeActions` | src/gameobjects/player.js:275-310 | boots raise built bricks and the hammer enlarges the blow |
| `PlayerEntity.LaterKeyOverrides` | src/gameobjects/player.js:195-214 | right overrides left and down overrides up |
| `PlayerEntity.Steer` | src/gameobjects/player.js:190-232 | steering changes only facing, flip, velocity and animation; right faces and flips right, left alone faces and flips left, and with neither held the facing and flip are kept |
| `PlayerEntity.SteeringMirror` | src/gameobjects/player.js:195-206 | left alone mirrors right alone: negated horizontal velocity, opposite facing and flip |
| `PlayerEntity.SteeringVelocity` | src/gameobjects/player.js:190-225 | no key gives zero velocity; left or right alone moves horizontally at walking speed, up or down alone vertically; a diagonal moves at `0.707` of it on both axes, signs kept; speed never exceeds walking speed |
| `PlayerEntity.SteeringAnimation` | src/gameobjects/player.js:227-232 | walk when moving, idle when still, unchanged while building; steering never touches building, health or life |
| `PlayerEntity.BuildingLifecycle` | src/gameobjects/player.js:227-331 | a hammer or build animation survives steering until its completion clears `building` |
| `Session.New` | src/network/NetworkManager.js:4-15 | a new session is disconnected, not host, roomless, anonymous, empty and consistent |
| `Session.Connect` | src/network/NetworkManager.js:20-33 | creating the socket arms the timer with the promise pending and no room handlers; a creation failure rejects at once |
| `Session.OnConnectEvent` | src/network/NetworkManager.js:34-48 | `connect` marks the session connected with the socket id as identity and resolves; `connect_error` disconnects and rejects; both clear the timer; an armed timer rejects a pending call with "Connection timeout" and disarms, and never touches the session; a settled promise stays settled |
| `Session.ConnectSettlesOnce` | src/network/NetworkManager.js:21-61 | once settled, the promise of `connect()` keeps its outcome through any later events |
| `Session.ConnectOutcomes` | src/network/NetworkManager.js:34-48 | a first `connect` resolves and sets the identity; a first `connect_error` rejects and leaves the session disconnected |
| `Session.LateConnectAfterTimeout` | src/network/NetworkManager.js:23-41 | a socket that connects after the timeout leaves the caller rejected but the session connected |
| `Session.ConnectKeepsValid` | src/network/NetworkManager.js:20-62 | connecting keeps the session invariant (connected implies socket and identity; handlers live on a socket; unique membership keys) |
| `Session.OnServerEvent` | src/network/NetworkManager.js:67-124 | events before the handlers are installed change nothing; `roomCreated`/`roomJoined` set room, host flag and membership; `roomJoined` without players updates room and host flag only and raises no notice; `playerJoined`/`playerLeft` set/delete one entry; each handler raises its own scene event carrying the server's data (`roomCreated`, `roomJoined`, `playerJoined`, `playerLeft`, `gameStarted`, `playerUpdate`, `gameObjectUpdate`, `networkError` for `error`, `roomError`) |
| `Session.MembershipEvents` | src/network/NetworkManager.js:69-96 | on a consistent session the membership keys after `roomCreated`/`roomJoined` are exactly the listed players, each holding the data of its last listing; `playerJoined` writes one entry and `playerLeft` removes one, the others unchanged |
| `Session.HostCreatesRoom` | src/network/NetworkManager.js:69-76 | the host's `roomCreated` with one member yields a hosted room of one member |
| `Session.CreateRoom` | src/network/NetworkManager.js:129-140 | emits `createRoom` with `maxPlayers` 4 iff connected; the session itself is unchanged |
| `Session.JoinRoom` | src/network/NetworkManager.js:145-168 | emits `joinRoom` with the given room iff connected with a socket |
| `Session.StartGame` | src/network/NetworkManager.js:205-214 | emits `startGame` for the current room iff connected and host |
| `Session.SendPlayerInput` | src/network/NetworkManager.js:219-228 | emits the input tagged with room, identity and time iff connected |
| `Session.SendPlayerUpdate` | src/network/NetworkManager.js:233-242 | emits the update tagged with room, identity and time iff connected |
| `Session.SendGameObjectUpdate` | src/network/NetworkManager.js:247-256 | emits the object update tagged with room, identity and time iff connected |
| `Session.LeaveRoom` | src/network/NetworkManager.js:261-272 | a no-op unless connected with a room; otherwise emits `leaveRoom` with room and identity and clears room, host flag and membership |
| `Session.IsInRoomAfterLeave` | src/network/NetworkManager.js:261-316 | leaving takes a session out of its room, and a second leave does nothing |
| `Session.HandleDisconnection` | src/network/NetworkManager.js:277-285 | clears connection, room, host flag and membership, keeps the identity, and notifies the scene |
| `Session.Disconnect` | src/network/NetworkManager.js:290-296 | drops the socket and its handlers, then handles the disconnection |
| `Session.DisconnectIdempotent` | src/network/NetworkManager.js:277-296 | disconnecting twice equals disconnecting once; the identity survives; the session is out of any room |
| `Session.GetRoomInfo` | src/network/NetworkManager.js:301-309 | reports room, host flag and identity, and the members' data in insertion order with their count |
| `Session.RoomInfoCountsMembers` | src/network/NetworkManager.js:306 | on a consistent session the reported count is the number of distinct members |
| `Session.GetRoomList` | src/network/NetworkManager.js:173-181 | resolves to `[]` at once when disconnected; otherwise asks the server and waits with timer and listeners armed |
| `Session.OnRoomListEvent` | src/network/NetworkManager.js:181-199 | reply, error and timer only ever resolve; a settled list does not change |
| `Session.RoomListNeverRejects` | src/network/NetworkManager.js:173-200 | no sequence of replies, errors and timeouts rejects the request |
| `Session.RoomListSettlesOnce` | src/network/NetworkManager.js:181-199 | once settled, the list keeps its value |
| `Session.RoomListOutcome` | src/network/NetworkManager.js:173-200 | the caller gets `[]` when disconnected, `rooms or []` if a reply comes first, `[]` if an error or the timeout comes first |
| `Session.StepKeepsValid` | src/network/NetworkManager.js:50-296 | every server event and client call keeps the session invariant, and only a connected session emits |
| `Combat.SpawnPlayerAttack` | src/scenes/game.js:952-974 | no zone without a player or attack group; otherwise sizes, duration, damage and kind by JavaScript `or` defaults, offsets and position by `??`, owner id `playerId or null`, an empty hit set, active |
| `Combat.SpawnDefaults` | src/scenes/game.js:955-966 | an empty configuration gives a 48 by 32 zone lasting 200 ms with damage 1, flush against the facing side |
| `Combat.FacingDecidesOffsetSign` | src/scenes/game.js:959-962 | the default offset points right unless the direction is `"left"`, and without a configured direction the facing is the attacker's |
| `Combat.HandlePlayerAttackHit` | src/scenes/game.js:1024-1051 | damage is requested iff the target is present, can take damage, active, alive, not the owner and not already hit; only an applied hit records a truthy id and tears down a single-use zone; anything else leaves the zone unchanged |
| `Combat.OnZoneEvent` | src/scenes/game.js:980-1021 | overlaps reach only active zones; the hit set only grows; a tick moves an active zone to its owner's position plus the spawn offsets, or tears it down when the owner is gone; expiry tears an active zone down and stops its timer; a torn-down zone stays torn down |
| `Combat.AtMostOnePerTarget` | src/scenes/game.js:1037-1045 | over any run of events a zone damages a given id at most once, and a recorded id never |
| `Combat.SingleUseAppliesOnce` | src/scenes/game.js:1046-1049 | a single-use zone applies at most one hit in its life, and none once torn down |
| `Combat.AnonymousTargetHitRepeatedly` | src/scenes/game.js:1043-1045 | a reusable zone damages a target without a truthy id on every overlap |
| `GameScene.GameMode` | src/scenes/game.js:54-55 | the mode is the registry value or `"singleplayer"`; multiplayer exactly for `"host"` and `"join"` |
| `GameScene.LocalPlayerId` | src/scenes/game.js:539-541 | the socket id in multiplayer with a network manager, `"localPlayer"` in single player and in multiplayer without a network manager |
| `GameScene.SinglePlayerIdentity` | src/scenes/game.js:54-55 | an unset or `"singleplayer"` mode is never multiplayer and names the player `"localPlayer"` |
| `GameScene.EnterDoor` | src/scenes/game.js:498-506 | a transition to the door's target stage, with the stage sound, is scheduled iff the door fires |
| `GameScene.EnterDoorOnce` | src/scenes/game.js:498-506 | a second entry into the same door schedules nothing and changes nothing |
| `GameScene.HitPlayer` | src/scenes/game.js:1165-1175 | an invincible player kills the foe; otherwise one damage is requested iff the player is alive, the stage number positive and `takeDamage` exists; the death sound plays iff that damage applied and killed |
| `GameScene.StarMakesFoesDie` | src/scenes/game.js:1165-1168 | after the star prize every touching foe dies and no damage is requested |
| `GameScene.UpdateHealthUI` | src/scenes/game.js:1097-1102 | without a text nothing is shown; otherwise `0 <= h <= m`, `m` is the positive maximum or 0, and `h` is the health clamped into `[0, m]` |
| `GameScene.CreateRemotePlayer` | src/scenes/game.js:835-872 | a proxy with the given id, health 10, the registry's sprite, not local, not attacking |
| `GameScene.UpdateRemotePlayer` | src/scenes/game.js:877-893 | moves the proxy to the snapshot's position, takes the flip, and plays the snapshot's animation only when it names one |
| `GameScene.HandleRemotePlayerUpdate` | src/scenes/game.js:807-830 | the own id and snapshots without a position are ignored; otherwise that id's proxy, created if new, is updated and nothing else changes |
| `GameScene.SnapshotUpdatesOneProxy` | src/scenes/game.js:807-858 | after a positioned snapshot from another id that id is in the map at the snapshot's position, a new proxy has the registry sprite and 10 health, and all other entries are unchanged |
| `GameScene.HandlePlayerLeftGame` | src/scenes/game.js:1134-1142 | deletes the id if present; an unknown id changes nothing |
| `GameScene.LeaveRemovesOne` | src/scenes/game.js:1134-1142 | the map afterwards is the map before minus exactly that id |
| `GameScene.KickConfig` | src/scenes/game.js:935-944 | kick damage, width, height and duration by JavaScript `or` defaults 1, 54, 40, 180; vertical offset by `?? -10`; kind `"kick"` |
| `GameScene.KickDefaults` | src/scenes/game.js:937-942 | without data the kick is 54 by 40, 180 ms, damage 1, offset -10; a zero damage or width falls back, a zero offset is kept |
| `GameScene.TurnForKick` | src/scenes/game.js:926-947 | the proxy faces right or left as the kick says (other directions keep the facing) and is marked attacking; nothing else changes |
| `GameScene.HandleRemoteKick` | src/scenes/game.js:922-950 | an unknown or dead proxy changes nothing; otherwise the proxy is turned and marked attacking, one zone is appended when there is an attack group, and the handler throws |
| `GameScene.KickSpawnsZone` | src/scenes/game.js:935-944 | the kick zone is owned by the proxy's id, carries the kick's damage, width, duration and offset with an empty hit set, and sits at the proxy's current position plus its offsets |
| `GameScene.KickFollowsLatestSnapshot` | src/scenes/game.js:877-885 | after a snapshot, a kick from that proxy spawns its zone at the snapshot's position plus the zone's offsets |
| `GameScene.KickTurnsProxy` | src/scenes/game.js:926-949 | the map after a kick differs from the map before only in the kicker's entry, and the kicker's animation is unchanged |
| `GameScene.ApplyHealth` | src/scenes/game.js:1070-1081 | a numeric `maxHealth` is copied, a numeric `health` is clamped to `[0, maxHealth or 1]`, nothing else changes, and a local player's text is refreshed |
| `GameScene.HealthStaysInRange` | src/scenes/game.js:1074-1076 | an updated health is at least 0 and at most `maxHealth or 1` when that is not negative; an update with neither field changes nothing |
| `GameScene.ApplyRemoteHealthUpdate` | src/scenes/game.js:1064-1082 | an empty or unknown id changes nothing; a proxy's id updates that proxy; the own id updates the local player |
| `GameScene.HandleRemotePlayerAction` | src/scenes/game.js:903-920 | messages without an action, the own id's echoes and unknown actions change nothing; `kick` and `healthUpdate` are dispatched with `{}` for missing data |
| `GameScene.RemoteActionsSpareLocalPlayer` | src/scenes/game.js:906-908 | with a network manager no remote action touches the local player |
| `GameScene.RemoteKeepsValid` | src/scenes/game.js:807-1142 | snapshots, departures and actions keep the map consistent: unique keys, no proxy for the own id, each proxy under its own id |

## Left out

- Rendering, cameras, audio playback, tweens and particles: sounds appear only
  as names in results. The 100 ms position tween is taken at its destination:
  a proxy is at the snapshot's position at once, so a kick thrown mid-tween
  starts from there rather than from a point along the way.
- Sockets and timers are replaced by explicit events.
  - The 10 s connect timeout, the 5 s room-list timeout, the 16 ms follow
    timer, the attack expiry and the 500 ms door delay are not modelled as
    time.
  - Message timestamps (`Date.now()`) are parameters.
- Code that is called but not defined in the modelled files:
  - `takeDamage` is an input outcome `(applied, died)`, and its effect on the
    target is not modelled.
  - `isLocal`, `maxHealth` and `updateHealthBar` are record fields or are
    left out.
  - `handleLocalPlayerAction` calls `sendPlayerAction`, which the network
    manager does not define, so that path is not modelled.
- A connect that replaces an existing socket is not modelled fully. It keeps
  no record of the old socket's handlers, and it does not model duplicate
  handlers from reconnects.
- The socket library's own `disconnect` event, raised while `disconnect()`
  runs, is not modelled. The model notifies the scene once.
- JavaScript object-key ordering: `Object.entries` puts integer-like keys
  first. Membership order is taken as given.
- Non-numeric and floating-point values:
  - health, damage and durations are integers;
  - geometry and velocities are exact reals;
  - `NaN`, non-integer health and JavaScript's `typeof` checks beyond
    present/absent are not modelled.
- `GameScene.UpdateRemotePlayer`: an absent `flipX` in a snapshot is recorded
  as `false`. The code stores `undefined`, which Phaser renders as unflipped.
- `Combat.HandlePlayerAttackHit`: a zone without a hit set (the code creates
  one lazily) and a missing `attack` argument are not modelled, because every
  spawned zone has a hit set.
- Layout, wall geometry, the tilemap, colliders, coins, lunch boxes, blows
  against foes, the bootloader scene and the wall object: they do not affect
  the modelled state.
- Mode selection or lobby flow: the modelled files contain none.
