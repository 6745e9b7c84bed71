/** Character selection in `src/scenes/splash.js`: a fixed roster, unlocks
    derived from saved progress, cyclic left/right selection that only lands
    on unlocked characters, the highlight rule, and the hand-off of the chosen
    sprite to the game. */
module Splash {
  import opened Js

  datatype Character = Character(key: string, name: string, unlocked: bool, unlockCondition: string)

  /** The roster as the scene creates it, before progress is consulted. */
  const Roster: seq<Character> := [
    Character("vanoSprite", "VANO", true, "default"),
    Character("walt", "Demchex", false, "Complete 3 levels"),
    Character("zombie", "Machex", false, "Collect 50 coins"),
    Character("penguin", "IO", false, "Find secret area"),
    Character("penguin", "Willen", false, "Find secret area")
  ]

  /** Saved progress as read from the registry; an absent entry reads as
      `0` or `false` through `||`. */
  datatype Progress = Progress(levelsCompleted: Option<int>, totalCoins: Option<int>, secretFound: Option<bool>)

  datatype Scene = Scene(players: seq<Character>, selectedPlayerIndex: int)

  /** What `startGame` hands over: the registry's `selectedPlayer` and the
      transition scene's parameters. */
  datatype Launch = Launch(selectedPlayer: string, next: string, stageName: string, stageNumber: int, time: int)

  /** The scene is consistent: the selection names an unlocked character. */
  predicate Valid(s: Scene) {
    0 <= s.selectedPlayerIndex < |s.players| && s.players[s.selectedPlayerIndex].unlocked
  }

  function Unlock(c: Character): Character {
    c.(unlocked := true)
  }

  /** `checkUnlockedPlayers()`: characters 1, 2 and 3 unlock on three completed
      levels, fifty coins and the secret area; nothing is ever locked. */
  function CheckUnlockedPlayers(players: seq<Character>, p: Progress): (r: seq<Character>)
    requires |players| > 3
    ensures |r| == |players|
    ensures forall i :: 0 <= i < |players| ==>
      r[i].key == players[i].key && r[i].name == players[i].name && r[i].unlockCondition == players[i].unlockCondition
    ensures forall i :: 0 <= i < |players| && players[i].unlocked ==> r[i].unlocked
    ensures r[1].unlocked <==> players[1].unlocked || OrInt(p.levelsCompleted, 0) >= 3
    ensures r[2].unlocked <==> players[2].unlocked || OrInt(p.totalCoins, 0) >= 50
    ensures r[3].unlocked <==> players[3].unlocked || p.secretFound.GetOr(false)
    ensures forall i :: 0 <= i < |players| && i !in {1, 2, 3} ==> r[i] == players[i]
  {
    var levels := OrInt(p.levelsCompleted, 0);
    var coins := OrInt(p.totalCoins, 0);
    var secret := p.secretFound.GetOr(false);
    var a := if levels >= 3 then players[1 := Unlock(players[1])] else players;
    var b := if coins >= 50 then a[2 := Unlock(a[2])] else a;
    if secret then b[3 := Unlock(b[3])] else b
  }

  /** `create()`: the roster with progress applied and the first character
      selected. */
  function Create(p: Progress): (s: Scene)
    ensures Valid(s)
    ensures s.selectedPlayerIndex == 0
  {
    Scene(CheckUnlockedPlayers(Roster, p), 0)
  }

  /** The unlock rule of a fresh scene, character by character. */
  lemma UnlockConditions(p: Progress)
    ensures var ps := Create(p).players;
      && |ps| == 5
      && ps[0].unlocked
      && (ps[1].unlocked <==> OrInt(p.levelsCompleted, 0) >= 3)
      && (ps[2].unlocked <==> OrInt(p.totalCoins, 0) >= 50)
      && (ps[3].unlocked <==> p.secretFound.GetOr(false))
      && !ps[4].unlocked
  {
  }

  /** The neighbouring index in direction `d`, wrapping around; the source's
      `(i + d + n) % n`, whose dividend is never negative here. */
  function Neighbour(i: int, d: int, n: int): (j: int)
    requires 0 <= i < n
    requires d == -1 || d == 1
    ensures 0 <= j < n
    ensures d == 1 ==> j == (if i == n - 1 then 0 else i + 1)
    ensures d == -1 ==> j == (if i == 0 then n - 1 else i - 1)
  {
    (i + d + n) % n
  }

  /** `showUnlockCondition(i)`: the text shown for character `i`, or nothing
      for an unlocked character. */
  function ShowUnlockCondition(s: Scene, i: int): (t: Option<string>)
    requires 0 <= i < |s.players|
    ensures t.None? <==> s.players[i].unlocked
    ensures t.Some? ==> t.value == s.players[i].unlockCondition
  {
    if s.players[i].unlocked then None else Some(s.players[i].unlockCondition)
  }

  /** `changePlayer(d)`: move to the neighbour if it is unlocked; otherwise keep
      the selection and show the neighbour's unlock condition. */
  function ChangePlayer(s: Scene, d: int): (r: (Scene, Option<string>))
    requires 0 <= s.selectedPlayerIndex < |s.players|
    requires d == -1 || d == 1
    ensures r.0.players == s.players
    ensures var j := Neighbour(s.selectedPlayerIndex, d, |s.players|);
      && (s.players[j].unlocked ==> r.0.selectedPlayerIndex == j && r.1.None?)
      && (!s.players[j].unlocked ==> r.0 == s && r.1 == Some(s.players[j].unlockCondition))
  {
    var j := (s.selectedPlayerIndex + d + |s.players|) % |s.players|;
    if s.players[j].unlocked then (s.(selectedPlayerIndex := j), None)
    else (s, ShowUnlockCondition(s, j))
  }

  /** Selection never leaves the unlocked characters. */
  lemma ChangePlayerKeepsValid(s: Scene, d: int)
    requires Valid(s)
    requires d == -1 || d == 1
    ensures Valid(ChangePlayer(s, d).0)
  {
  }

  /** `update()` over a run of left (-1) and right (1) key presses. */
  function Navigate(s: Scene, ds: seq<int>): (r: Scene)
    requires 0 <= s.selectedPlayerIndex < |s.players|
    requires forall k :: 0 <= k < |ds| ==> ds[k] == -1 || ds[k] == 1
    ensures r.players == s.players
    ensures 0 <= r.selectedPlayerIndex < |r.players|
    decreases |ds|
  {
    if |ds| == 0 then s else Navigate(ChangePlayer(s, ds[0]).0, ds[1..])
  }

  /** However long the run of presses, the selection stays on an unlocked
      character. */
  lemma {:induction false} NavigateKeepsValid(s: Scene, ds: seq<int>)
    requires Valid(s)
    requires forall k :: 0 <= k < |ds| ==> ds[k] == -1 || ds[k] == 1
    ensures Valid(Navigate(s, ds))
    decreases |ds|
  {
    if |ds| > 0 {
      ChangePlayerKeepsValid(s, ds[0]);
      NavigateKeepsValid(ChangePlayer(s, ds[0]).0, ds[1..]);
    }
  }

  /** When only the first character is unlocked, no key press moves the
      selection. */
  lemma {:induction false} OnlyDefaultUnlockedStaysPut(s: Scene, ds: seq<int>)
    requires Valid(s) && s.selectedPlayerIndex == 0
    requires forall i :: 0 < i < |s.players| ==> !s.players[i].unlocked
    requires forall k :: 0 <= k < |ds| ==> ds[k] == -1 || ds[k] == 1
    ensures Navigate(s, ds) == s
    decreases |ds|
  {
    if |ds| > 0 {
      var j := Neighbour(0, ds[0], |s.players|);
      assert ChangePlayer(s, ds[0]).0 == s;
      OnlyDefaultUnlockedStaysPut(s, ds[1..]);
    }
  }

  /** `updatePlayerSelection()`: a frame is drawn gold exactly when it is the
      selected, unlocked character. */
  predicate Highlighted(s: Scene, i: int)
    requires 0 <= i < |s.players|
  {
    i == s.selectedPlayerIndex && s.players[i].unlocked
  }

  /** The frame colour `updatePlayerSelection()` draws for character `i`. */
  function FrameColor(s: Scene, i: int): int
    requires 0 <= i < |s.players|
  {
    if Highlighted(s, i) then 0xffbf00
    else if s.players[i].unlocked then 0x888888
    else 0x444444
  }

  /** The name tint `updatePlayerSelection()` sets for character `i`. */
  function NameTint(s: Scene, i: int): int
    requires 0 <= i < |s.players|
  {
    if Highlighted(s, i) then 0xffbf00
    else if s.players[i].unlocked then 0xffffff
    else 0x666666
  }

  /** In a consistent scene exactly the selected character is highlighted. */
  lemma ExactlySelectedHighlighted(s: Scene)
    requires Valid(s)
    ensures forall i :: 0 <= i < |s.players| ==> (Highlighted(s, i) <==> i == s.selectedPlayerIndex)
    ensures forall i :: 0 <= i < |s.players| ==> (FrameColor(s, i) == 0xffbf00 <==> i == s.selectedPlayerIndex)
    ensures forall i :: 0 <= i < |s.players| ==> (NameTint(s, i) == 0xffbf00 <==> i == s.selectedPlayerIndex)
  {
  }

  /** `startGame()`: publishes the selected character's sprite key and starts
      stage 0 through the transition scene. */
  function StartGame(s: Scene): (l: Launch)
    requires 0 <= s.selectedPlayerIndex < |s.players|
    ensures l.selectedPlayer == s.players[s.selectedPlayerIndex].key
    ensures l.next == "game" && l.stageName == "STAGE" && l.stageNumber == 0 && l.time == 30
  {
    Launch(s.players[s.selectedPlayerIndex].key, "game", "STAGE", 0, 30)
  }

  /** Whatever the player does on the menu, the scene stays consistent and the
      published sprite is one of the roster's sprite keys. */
  lemma {:induction false} LaunchedSpriteIsUnlocked(p: Progress, ds: seq<int>)
    requires forall k :: 0 <= k < |ds| ==> ds[k] == -1 || ds[k] == 1
    ensures Valid(Navigate(Create(p), ds))
    ensures StartGame(Navigate(Create(p), ds)).selectedPlayer in {"vanoSprite", "walt", "zombie", "penguin"}
  {
    var s := Navigate(Create(p), ds);
    NavigateKeepsValid(Create(p), ds);
    assert s.players == Create(p).players;
  }
}
