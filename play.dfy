/**
 * The names and avatars participants are shown under (`Player` in
 * src/play.rs): a generated name derived from the participant's index, and
 * an optional name of their own choosing.
 */
module Play {
  import opened Wrappers
  import opened Strings

  /** The avatar names, in the order the avatars are handed out. */
  const AVATAR_NAMES: seq<string> := [
    "Rascal", "Chester", "Coco", "Bella", "Gizmo",
    "Kitty", "Daisy", "Angel", "Bubba", "Boots",
    "Patches", "Simon", "Sugar", "Gracie", "Princess",
    "Dusty", "Luna", "Baby", "Milo", "Jasmine"
  ]

  /** How many avatars there are, the length of `AVATAR_NAMES`. */
  const AVATAR_COUNT: nat := 20

  datatype Player = Player(generatedName: string, customName: Option<string>, avatarIndex: nat)

  /**
   * `Player::new`: the avatars are handed out in turn; the first round of
   * participants get the bare avatar name, later rounds the name numbered
   * with the round, counting from 2.
   */
  function NewPlayer(playerIndex: nat): (p: Player)
    ensures p.avatarIndex < AVATAR_COUNT == |AVATAR_NAMES|
    ensures p.avatarIndex == playerIndex % AVATAR_COUNT
    ensures p.customName.None?
    ensures playerIndex < AVATAR_COUNT ==> p.generatedName == AVATAR_NAMES[playerIndex]
    ensures playerIndex >= AVATAR_COUNT ==>
      p.generatedName == WithNumber(AVATAR_NAMES[p.avatarIndex], playerIndex / AVATAR_COUNT + 1)
  {
    var avatarIndex := playerIndex % AVATAR_COUNT;
    var duplicateNameNumber := DuplicateNameNumber(playerIndex, avatarIndex);
    assert |AVATAR_NAMES| == AVATAR_COUNT;
    var generatedName :=
      if duplicateNameNumber >= 2 then WithNumber(AVATAR_NAMES[avatarIndex], duplicateNameNumber)
      else AVATAR_NAMES[avatarIndex];
    Player(generatedName, None, avatarIndex)
  }

  /** The round a participant's avatar is handed out in, counting from 1. */
  function DuplicateNameNumber(playerIndex: nat, avatarIndex: nat): (k: nat)
    requires avatarIndex == playerIndex % AVATAR_COUNT
    ensures k == playerIndex / AVATAR_COUNT + 1
  {
    assert playerIndex - avatarIndex == (playerIndex / AVATAR_COUNT) * AVATAR_COUNT;
    (playerIndex - avatarIndex) / AVATAR_COUNT + 1
  }

  /** `get_name`: the participant's own name if they chose one, else the generated one. */
  function GetName(p: Player): (name: string)
    ensures p.customName.Some? ==> name == p.customName.value
    ensures p.customName.None? ==> name == p.generatedName
  {
    match p.customName
    case Some(n) => n
    case None => p.generatedName
  }

  /** A new participant is shown under the generated name. */
  lemma NewPlayerName(playerIndex: nat)
    ensures GetName(NewPlayer(playerIndex)) == NewPlayer(playerIndex).generatedName
    ensures |GetName(NewPlayer(playerIndex))| > 0
  {
  }

  /** The avatar names are pairwise distinct and contain no parenthesis. */
  lemma AvatarNamesDistinct()
    ensures |AVATAR_NAMES| == AVATAR_COUNT
    ensures forall i, j :: 0 <= i < AVATAR_COUNT && 0 <= j < AVATAR_COUNT && AVATAR_NAMES[i] == AVATAR_NAMES[j] ==> i == j
    ensures forall i :: 0 <= i < AVATAR_COUNT ==> '(' !in AVATAR_NAMES[i] && ')' !in AVATAR_NAMES[i]
  {
  }

  /** No two participants get the same generated name. */
  lemma GeneratedNamesDistinct(i: nat, j: nat)
    requires i != j
    ensures NewPlayer(i).generatedName != NewPlayer(j).generatedName
  {
    AvatarNamesDistinct();
    var n := AVATAR_COUNT;
    if i < n && j < n {
      assert NewPlayer(i).generatedName == AVATAR_NAMES[i];
    } else if i >= n && j >= n {
      NumberedNamesDistinct(i, j);
    } else if i < n {
      BareNameIsNotNumbered(i, j);
    } else {
      BareNameIsNotNumbered(j, i);
    }
  }

  /** Later-round names differ: the name gives back both the avatar and the round. */
  lemma NumberedNamesDistinct(i: nat, j: nat)
    requires AVATAR_COUNT <= i && AVATAR_COUNT <= j && i != j
    ensures NewPlayer(i).generatedName != NewPlayer(j).generatedName
  {
    IndexFromRoundAndAvatar(i, j);
    var x, p := NumberedName(i);
    var y, q := NumberedName(j);
    NumberedNamesDiffer(x, p, y, q);
  }

  /** A later-round name is the avatar's name numbered with the round. */
  lemma NumberedName(i: nat) returns (x: nat, p: nat)
    requires AVATAR_COUNT <= i
    ensures x == i % AVATAR_COUNT && p == i / AVATAR_COUNT + 1 && x < AVATAR_COUNT
    ensures NewPlayer(i).generatedName == WithNumber(AVATAR_NAMES[x], p)
  {
    x, p := i % AVATAR_COUNT, i / AVATAR_COUNT + 1;
  }

  /** Numbered names of different avatars or different rounds differ. */
  lemma NumberedNamesDiffer(x: nat, p: nat, y: nat, q: nat)
    requires x < AVATAR_COUNT && y < AVATAR_COUNT && (x != y || p != q)
    ensures WithNumber(AVATAR_NAMES[x], p) != WithNumber(AVATAR_NAMES[y], q)
  {
    if WithNumber(AVATAR_NAMES[x], p) == WithNumber(AVATAR_NAMES[y], q) {
      AvatarNameHasNoParenthesis(x);
      AvatarNameHasNoParenthesis(y);
      WithNumberInjective(AVATAR_NAMES[x], p, AVATAR_NAMES[y], q);
      AvatarNameIdentifies(x, y);
    }
  }

  /** An avatar name contains no parenthesis. */
  lemma AvatarNameHasNoParenthesis(x: nat)
    requires x < AVATAR_COUNT
    ensures x < |AVATAR_NAMES| && '(' !in AVATAR_NAMES[x]
  {
    AvatarNamesDistinct();
  }

  /** An avatar name identifies its avatar. */
  lemma AvatarNameIdentifies(x: nat, y: nat)
    requires x < AVATAR_COUNT && y < AVATAR_COUNT && AVATAR_NAMES[x] == AVATAR_NAMES[y]
    ensures x == y
  {
    AvatarNamesDistinct();
  }

  /** An index is determined by its round and its avatar. */
  lemma IndexFromRoundAndAvatar(i: nat, j: nat)
    requires i != j
    ensures i % AVATAR_COUNT != j % AVATAR_COUNT || i / AVATAR_COUNT != j / AVATAR_COUNT
  {
    var n := AVATAR_COUNT;
    assert i == (i / n) * n + i % n && j == (j / n) * n + j % n;
  }

  /** A first-round name never ends in `')'`, a later-round name always does. */
  lemma BareNameIsNotNumbered(i: nat, j: nat)
    requires i < AVATAR_COUNT <= j
    ensures NewPlayer(i).generatedName != NewPlayer(j).generatedName
  {
    AvatarNamesDistinct();
    var a, b := NewPlayer(i).generatedName, NewPlayer(j).generatedName;
    assert a == AVATAR_NAMES[i];
    assert b[|b| - 1] == ')';
    assert |a| > 0 && a[|a| - 1] in AVATAR_NAMES[i];
  }
}
