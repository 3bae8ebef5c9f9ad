/**
 * The game's state: the catalog of roles and traits, the numbering of the
 * roles and traits kept for play, the roster updates the screens hand back,
 * and the choice slots the screens read.
 */
module Game {
  import opened Wrappers
  import opened ArrayOps
  import opened Characters
  import opened Shuffle
  import opened AtNight
  import opened StartGame

  /** Every role of the edition, in catalog order; Vampire Spawn and Vampire are left out of play. */
  const AllCharacters: seq<Character> := [
    NewCharacter("Gravekeeper", true, Townsfolk),
    NewCharacter("Gossipmonger", true, Townsfolk),
    NewCharacter("Ravenkeeper", true, Townsfolk),
    NewCharacter("Investigator", true, Townsfolk),
    NewCharacter("Bedmaker", true, Townsfolk),
    NewCharacter("Medicine Doctor", true, Townsfolk),
    NewCharacter("Hero", true, Townsfolk),
    NewCharacter("Grandparent", true, Townsfolk),
    NewCharacter("Oracle", true, Townsfolk),
    NewCharacter("Townguard", true, Townsfolk),
    NewCharacter("Dreamer", true, Townsfolk),
    NewCharacter("Fortune Teller", true, Townsfolk),
    NewCharacter("Poisoner", true, Minion),
    NewCharacter("Spy", true, Minion),
    NewCharacter("Assassin", true, Minion),
    NewCharacter("Vampire Spawn", false, Minion),
    NewCharacter("Mad Magician", true, Villain),
    NewCharacter("Grim Reaper", true, Villain),
    NewCharacter("Vampire", false, Villain),
    NewCharacter("Cleric", true, OutsiderGood),
    NewCharacter("Bard", true, OutsiderGood),
    NewCharacter("Slayer", true, OutsiderGood),
    NewCharacter("Mastermind", true, OutsiderEvil),
    NewCharacter("Evil Twin", true, OutsiderEvil)]

  /** Every trait of the edition; Lucky is left out of play. */
  const AllTraits: seq<Trait> := [
    NewTrait("Saint", true),
    NewTrait("Recluse", true),
    NewTrait("Drunk", true),
    NewTrait("Lucky", false)]

  predicate CharacterIncluded(c: Character) {
    c.includeInGame
  }

  predicate TraitIncluded(t: Trait) {
    t.includeInGame
  }

  function CharacterNumber(c: Character): int {
    c.randomNumber
  }

  function TraitNumber(t: Trait): int {
    t.randomNumber
  }

  /** The numbers shown beside the roster: the characters' first, then the traits'. */
  function Numbers(chars: seq<Character>, traits: seq<Trait>): (r: seq<int>)
    ensures |r| == |chars| + |traits|
  {
    Map(chars, CharacterNumber) + Map(traits, TraitNumber)
  }

  // ---------------------------------------------------------------------
  // The catalog and its numbering

  lemma {:induction false} FilterKeepsAll<T>(s: seq<T>, p: T -> bool)
    requires forall k :: 0 <= k < |s| ==> p(s[k])
    ensures Filter(s, p) == s
  {
    if s != [] {
      FilterKeepsAll(s[1..], p);
    }
  }

  lemma FilterDropsOne<T>(x: T, p: T -> bool)
    requires !p(x)
    ensures Filter([x], p) == []
  {
  }

  /** Filtering drops exactly the entries at positions 15 and 18 of a 24-entry list when only those fail. */
  lemma FilterDropsTwo<T>(a: seq<T>, p: T -> bool)
    requires |a| == 24 && !p(a[15]) && !p(a[18])
    requires forall k :: 0 <= k < 24 && k != 15 && k != 18 ==> p(a[k])
    ensures Filter(a, p) == a[..15] + a[16..18] + a[19..]
    ensures |Filter(a, p)| == 22
  {
    var front, x, middle, y, back := a[..15], a[15], a[16..18], a[18], a[19..];
    assert a == front + [x] + middle + [y] + back;
    FilterKeepsAll(front, p);
    FilterKeepsAll(middle, p);
    FilterKeepsAll(back, p);
    FilterDropsOne(x, p);
    FilterDropsOne(y, p);
    FilterAppend(front, [x], p);
    assert Filter(front + [x], p) == front;
    FilterAppend(front + [x], middle, p);
    assert Filter(front + [x] + middle, p) == front + middle;
    FilterAppend(front + [x] + middle, [y], p);
    assert Filter(front + [x] + middle + [y], p) == front + middle;
    FilterAppend(front + [x] + middle + [y], back, p);
  }

  /** Filtering drops exactly the last of four entries when only it fails. */
  lemma FilterDropsLast<T>(a: seq<T>, p: T -> bool)
    requires |a| == 4 && !p(a[3]) && p(a[0]) && p(a[1]) && p(a[2])
    ensures Filter(a, p) == a[..3] && |Filter(a, p)| == 3
  {
    assert a == a[..3] + [a[3]];
    FilterAppend(a[..3], [a[3]], p);
    FilterKeepsAll(a[..3], p);
    FilterDropsOne(a[3], p);
  }

  /** Play keeps 22 of the 24 roles: all but Vampire Spawn and Vampire, in catalog order. */
  lemma IncludedCharacters()
    ensures Filter(AllCharacters, CharacterIncluded) == AllCharacters[..15] + AllCharacters[16..18] + AllCharacters[19..]
    ensures |Filter(AllCharacters, CharacterIncluded)| == 22
  {
    assert forall k :: 0 <= k < 24 && k != 15 && k != 18 ==> AllCharacters[k].includeInGame;
    assert !AllCharacters[15].includeInGame && !AllCharacters[18].includeInGame;
    FilterDropsTwo(AllCharacters, CharacterIncluded);
  }

  /** Play keeps 3 of the 4 traits: all but Lucky. */
  lemma IncludedTraits()
    ensures Filter(AllTraits, TraitIncluded) == AllTraits[..3]
    ensures |Filter(AllTraits, TraitIncluded)| == 3
  {
    assert AllTraits[0].includeInGame && AllTraits[1].includeInGame && AllTraits[2].includeInGame;
    assert !AllTraits[3].includeInGame;
    FilterDropsLast(AllTraits, TraitIncluded);
  }

  /**
   * The included characters and traits, in catalog order, each given the
   * matching entry of `numbers` (the characters the first entries, the
   * traits the rest), with nothing else changed.
   */
  predicate NumberedWith(
    chars: seq<Character>, traits: seq<Trait>,
    included: seq<Character>, includedTraits: seq<Trait>, numbers: seq<int>)
  {
    && |numbers| == |included| + |includedTraits|
    && |chars| == |included| && |traits| == |includedTraits|
    && (forall k :: 0 <= k < |chars| ==> chars[k] == included[k].(randomNumber := numbers[k]))
    && (forall k :: 0 <= k < |traits| ==> traits[k] == includedTraits[k].(randomNumber := numbers[|chars| + k]))
  }

  /** On the catalog, 22 characters and 3 traits are numbered, with the numbers 1 to 25. */
  lemma CatalogNumbering(chars: seq<Character>, traits: seq<Trait>, picks: seq<nat>)
    requires NumberedFrom(chars, traits, AllCharacters, AllTraits, picks)
    ensures |chars| == 22 && |traits| == 3 && |picks| == 25
  {
    IncludedCharacters();
    IncludedTraits();
  }

  /** What the numbering leaves: the included entries numbered by the shuffled range `1..n+m`. */
  predicate NumberedFrom(
    chars: seq<Character>, traits: seq<Trait>,
    catalogChars: seq<Character>, catalogTraits: seq<Trait>, picks: seq<nat>)
  {
    var included := Filter(catalogChars, CharacterIncluded);
    var includedTraits := Filter(catalogTraits, TraitIncluded);
    && ValidPicks(picks, |included| + |includedTraits|)
    && NumberedWith(chars, traits, included, includedTraits, Shuffled(Range(1, |included| + |includedTraits|), picks))
  }

  /** `includedCharacters.forEach((c, i) => c.randomNumber = numbers[i])` */
  method NumberCharacters(included: seq<Character>, numbers: seq<int>) returns (chars: seq<Character>)
    requires |included| <= |numbers|
    ensures |chars| == |included|
    ensures forall k :: 0 <= k < |chars| ==> chars[k] == included[k].(randomNumber := numbers[k])
  {
    chars := included;
    var index := 0;
    while index < |chars|
      invariant 0 <= index <= |chars| == |included|
      invariant forall k :: 0 <= k < index ==> chars[k] == included[k].(randomNumber := numbers[k])
      invariant forall k :: index <= k < |chars| ==> chars[k] == included[k]
    {
      chars := chars[index := chars[index].(randomNumber := numbers[index])];
      index := index + 1;
    }
  }

  /** `includedTraits.forEach((t, i) => t.randomNumber = numbers[i + offset])` */
  method NumberTraits(included: seq<Trait>, numbers: seq<int>, offset: nat) returns (traits: seq<Trait>)
    requires offset + |included| <= |numbers|
    ensures |traits| == |included|
    ensures forall k :: 0 <= k < |traits| ==> traits[k] == included[k].(randomNumber := numbers[k + offset])
  {
    traits := included;
    var index := 0;
    while index < |traits|
      invariant 0 <= index <= |traits| == |included|
      invariant forall k :: 0 <= k < index ==> traits[k] == included[k].(randomNumber := numbers[k + offset])
      invariant forall k :: index <= k < |traits| ==> traits[k] == included[k]
    {
      traits := traits[index := traits[index].(randomNumber := numbers[index + offset])];
      index := index + 1;
    }
  }

  /** Reading the numbers back off a numbered roster gives the numbers handed out. */
  lemma NumbersHandedOut(
    chars: seq<Character>, traits: seq<Trait>,
    included: seq<Character>, includedTraits: seq<Trait>, numbers: seq<int>)
    requires NumberedWith(chars, traits, included, includedTraits, numbers)
    ensures Numbers(chars, traits) == numbers
  {
    var ns := Numbers(chars, traits);
    forall k | 0 <= k < |ns| ensures ns[k] == numbers[k] {
      if k < |chars| {
        assert ns[k] == Map(chars, CharacterNumber)[k];
      } else {
        assert ns[k] == Map(traits, TraitNumber)[k - |chars|];
      }
    }
  }

  /** A roster numbered by the shuffled range `1..n+m` carries every number of that range once. */
  lemma NumberedRange(
    chars: seq<Character>, traits: seq<Trait>,
    catalogChars: seq<Character>, catalogTraits: seq<Trait>, picks: seq<nat>, numbers: seq<int>)
    requires ValidPicks(picks, |Filter(catalogChars, CharacterIncluded)| + |Filter(catalogTraits, TraitIncluded)|)
    requires numbers == Shuffled(Range(1, |Filter(catalogChars, CharacterIncluded)| + |Filter(catalogTraits, TraitIncluded)|), picks)
    requires NumberedWith(chars, traits, Filter(catalogChars, CharacterIncluded), Filter(catalogTraits, TraitIncluded), numbers)
    ensures NumberedFrom(chars, traits, catalogChars, catalogTraits, picks)
    ensures Numbers(chars, traits) == Shuffled(Range(1, |chars| + |traits|), picks)
    ensures forall x :: x in Numbers(chars, traits) <==> 1 <= x <= |chars| + |traits|
    ensures Distinct(Numbers(chars, traits))
  {
    ShuffledRange(1, |chars| + |traits|, picks);
    NumbersHandedOut(chars, traits, Filter(catalogChars, CharacterIncluded), Filter(catalogTraits, TraitIncluded), numbers);
  }

  /**
   * The start-up effect: keep the included characters and traits, shuffle
   * `1..n+m`, and hand the entries out in order. Every number is in range
   * and no two entities share one.
   */
  method NumberRoster(catalogChars: seq<Character>, catalogTraits: seq<Trait>, picks: seq<nat>)
    returns (chars: seq<Character>, traits: seq<Trait>)
    requires ValidPicks(picks, |Filter(catalogChars, CharacterIncluded)| + |Filter(catalogTraits, TraitIncluded)|)
    ensures NumberedFrom(chars, traits, catalogChars, catalogTraits, picks)
    ensures Numbers(chars, traits) == Shuffled(Range(1, |chars| + |traits|), picks)
    ensures forall x :: x in Numbers(chars, traits) <==> 1 <= x <= |chars| + |traits|
    ensures Distinct(Numbers(chars, traits))
  {
    var includedCharacters := Filter(catalogChars, CharacterIncluded);
    var includedTraits := Filter(catalogTraits, TraitIncluded);
    var randomRange := ShuffleNumberRange(1, |includedCharacters| + |includedTraits|, picks);
    chars := NumberCharacters(includedCharacters, randomRange);
    traits := NumberTraits(includedTraits, randomRange, |includedCharacters|);
    assert NumberedWith(chars, traits, includedCharacters, includedTraits, randomRange);
    NumberedRange(chars, traits, catalogChars, catalogTraits, picks, randomRange);
  }

  /** The role strings of the catalog. */
  const CatalogRoleNames: set<string> := {
    "Gravekeeper", "Gossipmonger", "Ravenkeeper", "Investigator", "Bedmaker", "Medicine Doctor",
    "Hero", "Grandparent", "Oracle", "Townguard", "Dreamer", "Fortune Teller",
    "Poisoner", "Spy", "Assassin", "Vampire Spawn", "Mad Magician", "Grim Reaper", "Vampire",
    "Cleric", "Bard", "Slayer", "Mastermind", "Evil Twin"}

  lemma CatalogRolesNamed()
    ensures forall k :: 0 <= k < |AllCharacters| ==> AllCharacters[k].role in CatalogRoleNames
  {
  }

  /**
   * No catalog role is spelt "FortuneTeller" or "Bed Maker", the strings the
   * night screen and the setup screen look up: on a roster drawn from the
   * catalog, the night screen never finds a Fortune Teller and the setup
   * screen never finds a Bedmaker, while the setup screen's "Fortune Teller"
   * and the night screen's "Bedmaker" are catalog roles.
   */
  lemma MisspeltLookupsFindNothing(chs: seq<Character>, trs: seq<Trait>)
    requires forall i :: 0 <= i < |chs| ==> chs[i].role in CatalogRoleNames
    ensures CastOf(chs).fortuneTeller == None
    ensures SetupCastOf(chs, trs).bedmaker == None
    ensures "Fortune Teller" in CatalogRoleNames && "Bedmaker" in CatalogRoleNames
  {
    assert "FortuneTeller" !in CatalogRoleNames;
    assert "Bed Maker" !in CatalogRoleNames;
  }

  // ---------------------------------------------------------------------
  // Replacing one roster entry

  /**
   * The list after `cs[index] = x` on a copy: the entry at `index` replaced,
   * every other entry kept; index -1 (no match found) leaves every entry.
   */
  function Replaced<T>(s: seq<T>, index: int, x: T): (r: seq<T>)
    requires -1 <= index < |s|
    ensures |r| == |s|
    ensures forall k :: 0 <= k < |s| ==> r[k] == if k == index then x else s[k]
  {
    if index == -1 then s else s[index := x]
  }

  /** Putting the old entry back undoes a replacement. */
  lemma ReplacedUndone<T>(s: seq<T>, index: int, x: T)
    requires 0 <= index < |s|
    ensures Replaced(Replaced(s, index, x), index, s[index]) == s
  {
    var r := Replaced(Replaced(s, index, x), index, s[index]);
    assert forall k :: 0 <= k < |s| ==> r[k] == s[k];
  }

  /** `characters.findIndex(c => c.player === player)` */
  function PlayerIndex(chs: seq<Character>, player: Option<string>): int {
    FindIndex(chs, (c: Character) => c.player == player)
  }

  function PlayerName(c: Character): Option<string> {
    c.player
  }

  /**
   * Updating by player replaces the first character with that player and
   * nothing else, or nothing at all when no character has it.
   */
  lemma UpdateByPlayerTargets(chs: seq<Character>, ch: Character)
    ensures var i := PlayerIndex(chs, ch.player);
      && (i == -1 <==> forall k :: 0 <= k < |chs| ==> chs[k].player != ch.player)
      && (i == -1 ==> Replaced(chs, i, ch) == chs)
      && (i != -1 ==>
            && 0 <= i < |chs| && chs[i].player == ch.player && Replaced(chs, i, ch)[i] == ch
            && (forall k :: 0 <= k < i ==> chs[k].player != ch.player)
            && (forall k :: 0 <= k < |chs| && k != i ==> Replaced(chs, i, ch)[k] == chs[k]))
  {
  }

  /** Updating by player leaves the players of the roster, in order, as they were. */
  lemma UpdateByPlayerKeepsPlayers(chs: seq<Character>, ch: Character)
    ensures Map(Replaced(chs, PlayerIndex(chs, ch.player), ch), PlayerName) == Map(chs, PlayerName)
  {
    var i := PlayerIndex(chs, ch.player);
    var r := Replaced(chs, i, ch);
    assert forall k :: 0 <= k < |chs| ==> Map(r, PlayerName)[k] == Map(chs, PlayerName)[k];
  }

  /**
   * A click on the Killed box of a death-list row: the row shows the choice
   * snapshot taken when the choice was made, its toggled copy is handed back
   * and replaces the first character with that player.
   */
  function KillClick(chs: seq<Character>, snap: Character): (r: seq<Character>)
    ensures |r| == |chs|
    ensures forall k :: 0 <= k < |chs| ==> r[k].player == chs[k].player
  {
    var toggled := snap.(killed := !snap.killed);
    Replaced(chs, PlayerIndex(chs, toggled.player), toggled)
  }

  /**
   * A click on a death-list row replaces the player's first character with
   * the snapshot, `killed` flipped from the snapshot's value, whatever the
   * roster entry holds now; no other entry changes.
   */
  lemma KillToggleByPlayer(chs: seq<Character>, i: nat, snap: Character)
    requires i < |chs| && forall k :: 0 <= k < i ==> chs[k].player != chs[i].player
    requires snap.player == chs[i].player
    ensures var r := KillClick(chs, snap);
      && |r| == |chs|
      && r[i] == snap.(killed := !snap.killed)
      && forall k :: 0 <= k < |chs| && k != i ==> r[k] == chs[k]
  {
    UpdateByPlayerTargets(chs, snap.(killed := !snap.killed));
  }

  /**
   * The death list keeps its snapshot, so a second click on an unkilled
   * snapshot hands back the same record: the player stays killed and the
   * roster does not change again.
   */
  lemma StaleKillToggleSticks(chs: seq<Character>, i: nat, snap: Character)
    requires i < |chs| && forall k :: 0 <= k < i ==> chs[k].player != chs[i].player
    requires snap.player == chs[i].player && !snap.killed
    ensures KillClick(chs, snap)[i].killed
    ensures KillClick(KillClick(chs, snap), snap) == KillClick(chs, snap)
    ensures KillClick(KillClick(chs, snap), snap)[i].killed
  {
    KillToggleByPlayer(chs, i, snap);
    var once := KillClick(chs, snap);
    KillToggleByPlayer(once, i, snap);
  }

  /** Starting a new night clears every choice, so no one is listed as dead. */
  lemma ResetNightHasNoDeaths(c: Cast, trs: seq<Trait>)
    ensures ExpectedDeaths(c, trs, NoChoices) == []
    ensures SurvivingKill(c, trs, NoChoices) == None
  {
  }

  function CopyCharacter(c: Character): Character {
    c.Copy()
  }

  function CopyTrait(t: Trait): Trait {
    t.Copy()
  }

  // ---------------------------------------------------------------------
  // The state

  /** The component's state: the roster, the traits and every choice slot of both screens. */
  class GameState {
    var characters: seq<Character>
    var traits: seq<Trait>
    var setupChoices: SetupChoices
    var nightChoices: NightChoices

    /** Every list empty and every choice slot unset. */
    constructor ()
      ensures characters == [] && traits == []
      ensures setupChoices == NoSetupChoices && nightChoices == NoChoices
    {
      characters := [];
      traits := [];
      setupChoices := NoSetupChoices;
      nightChoices := NoChoices;
    }

    /**
     * The start-up effect, run on the catalog (`AllCharacters`, `AllTraits`):
     * the included entries, numbered from a shuffled `1..n+m` without repeats.
     */
    method Initialize(catalogChars: seq<Character>, catalogTraits: seq<Trait>, picks: seq<nat>)
      requires ValidPicks(picks, |Filter(catalogChars, CharacterIncluded)| + |Filter(catalogTraits, TraitIncluded)|)
      modifies this
      ensures NumberedFrom(characters, traits, catalogChars, catalogTraits, picks)
      ensures forall x :: x in Numbers(characters, traits) <==> 1 <= x <= |characters| + |traits|
      ensures Distinct(Numbers(characters, traits))
      ensures setupChoices == old(setupChoices) && nightChoices == old(nightChoices)
    {
      characters, traits := NumberRoster(catalogChars, catalogTraits, picks);
    }

    /** `updateCharacter`: copy every character, then put `character` at `index`. */
    method UpdateCharacter(index: int, character: Character)
      requires -1 <= index < |characters|
      modifies this
      ensures characters == Replaced(old(characters), index, character)
      ensures traits == old(traits) && setupChoices == old(setupChoices) && nightChoices == old(nightChoices)
    {
      var cs := Map(characters, CopyCharacter);
      assert cs == characters;
      if index != -1 {
        cs := cs[index := character];
      }
      characters := cs;
    }

    /**
     * `updateCharacterWithoutIndex`: the character is placed where the first
     * character with its player is; when there is none, the list is left as
     * it was.
     */
    method UpdateCharacterWithoutIndex(character: Character)
      modifies this
      ensures characters == Replaced(old(characters), PlayerIndex(old(characters), character.player), character)
      ensures Map(characters, PlayerName) == Map(old(characters), PlayerName)
      ensures traits == old(traits) && setupChoices == old(setupChoices) && nightChoices == old(nightChoices)
    {
      var index := PlayerIndex(characters, character.player);
      UpdateByPlayerKeepsPlayers(characters, character);
      UpdateCharacter(index, character);
    }

    /** `updateTrait`: copy every trait, then put `tag` at `index`. */
    method UpdateTrait(index: int, tag: Trait)
      requires -1 <= index < |traits|
      modifies this
      ensures traits == Replaced(old(traits), index, tag)
      ensures characters == old(characters) && setupChoices == old(setupChoices) && nightChoices == old(nightChoices)
    {
      var tr := Map(traits, CopyTrait);
      assert tr == traits;
      if index != -1 {
        tr := tr[index := tag];
      }
      traits := tr;
    }

    /** The night screen's reset: every night choice slot cleared, the roster and setup choices kept. */
    method ResetNight()
      modifies this
      ensures nightChoices == NoChoices
      ensures characters == old(characters) && traits == old(traits) && setupChoices == old(setupChoices)
    {
      nightChoices := NoChoices;
    }
  }
}
