# Virtual Blood on the Clocktower: a verified model of the storyteller's core

This project models the storyteller assistant's game logic in Dafny:

- the character and trait entities;
- the Fisher–Yates shuffle and the shuffled number range;
- the setup screen, which checks that the roster is consistent and then lists each role's first-night instructions;
- the night screen, which works out who is drunk tonight, whether the Hero stopped a villain, which villain kill survives the Bard and the Cleric, the ordered death list, the "must wait" gate and each role's prompt;
- the game component, which numbers the roster at start-up, replaces roster entries by index or by player, and clears the night choices;
- the character record's edit and toggle controls.

Layout:

- `wrappers.dfy`: `Option`.
- `array_ops.dfy`: the array helpers the code relies on (`find`, `findIndex`, `filter`, `map`), with their meaning proved.
- `characters.dfy`: `Trait` and `Character` as value datatypes. Every mutation of a roster entry after start-up runs on a fresh `copy()`, so each object behaves as a value; the start-up numbering, which assigns in place, is discussed under "Left out".
- `shuffle.dfy`: `shuffleArray` as an in-place `array` method, and `shuffleNumberRange`.
- `character_record.dfy`: the controls of one roster row.
- `at_night.dfy`: the night screen.
- `start_game.dfy`: the setup screen.
- `game.dfy`: the catalog, the start-up numbering and the `GameState` class that holds the component's state.

How the model represents the source:

- A player name is an `Option<string>`. JavaScript truthiness of `c.player` is `Truthy` (present and non-empty). Comparisons such as `a?.player === b?.player` are equalities of options, so two absent players compare equal, as `undefined === undefined` does.
- A night choice is a snapshot `Option<Character>`. A setup choice is a player name.
- `Math.random` is replaced by a parameter `picks`: `picks[i]` is the index the shuffle draws at step `i`, with `picks[i] <= i` (`ValidPicks`). Every claim holds for every such sequence, so it holds whatever the random generator returns.
- Each screen is a method that pushes prompts one role at a time, as the component does. Each is proved equal to a pure function (`NightView`, `SetupView`), and the properties are lemmas about that function.
- Each screen's rendered JSX is a datatype of prompt variants (`NightText`, `SetupText`). Each variant carries the values the prompt interpolates; where the source interpolates a `Character` object, the variant holds that character.

Where the code and its description differ, the model follows the code:

- The night screen looks up the Fortune Teller under the role string `"FortuneTeller"`. The setup screen looks up the Bedmaker under `"Bed Maker"`. The catalog spells the two roles `"Fortune Teller"` and `"Bedmaker"`, so those two lookups never find anyone; `Game.MisspeltLookupsFindNothing` states this.
- The Hero stops a villain when the Hero's choice has the same player as the villain itself, not as the villain's target.
- An execution does not suppress the Grim Reaper's kill.
- The Bard's and the Cleric's blocks ignore the Drunk trait: only tonight's drunk and poison picks disable them.
- The Assassin and the Grim Reaper "skip" by choosing themselves, and the Bard's "No drunk" stores a snapshot of the Bard's own character as the drunk pick; since only players are compared, the Bard stays drunk tonight even after its roster entry changes.
- The setup screen refuses a Vampire that has a minion, while the night screen refuses a Vampire without one.
- The start-up effect numbers 22 characters and 3 traits with `1..25`.
- The Investigator's and the Medicine Doctor's setup texts interpolate two `Character` objects, not player names or roles. `Character` defines no `toString`, so the rendered text reads `[object Object]` where a name is meant. The model's variants hold the two characters as interpolated.
- A death-list row shows the choice snapshot taken when the choice was made (`executedToday`, `assassinChoice` or the surviving villain choice), and the roster update never refreshes it. Its Killed box therefore hands back the snapshot with `killed` flipped from the snapshot's value: a second click hands back the same record, so the death stays, and any field edited on the roster since the choice is overwritten. `Game.StaleKillToggleSticks` states this.

## Model

| member | source | states |
|---|---|---|
| `ArrayOps.Find` | src/components/AtNightScreen.tsx:49 | `find` returns a value exactly when some element satisfies the predicate, and then it is the first such element |
| `ArrayOps.FindIndex` | src/components/Game.tsx:88 | `findIndex` is -1 exactly when no element matches; otherwise it is the first matching position |
| `ArrayOps.Filter` | src/components/Game.tsx:72-73 | `filter` keeps every element that satisfies the predicate, and only elements of the input that satisfy it |
| `ArrayOps.FilterAppend` | src/components/Game.tsx:72-73 | filtering distributes over concatenation |
| `ArrayOps.FilterCountsPositions` | src/components/AtNightScreen.tsx:398-400 | the length of a filtered array is the number of positions whose element satisfies the predicate |
| `ArrayOps.Map` | src/components/Game.tsx:82 | `map` keeps the length and applies the function at every position |
| `Characters.Trait.Copy` | src/entities/characters.ts:21-26 | a trait's copy equals the original in every field, even though it is rebuilt through the constructor |
| `Characters.NewTrait` | src/entities/characters.ts:7-19 | a new trait has the given role and inclusion flag, number -1, and a debug player |
| `Characters.Character.Copy` | src/entities/characters.ts:81-89 | a character's copy equals the original in every field |
| `Characters.NewCharacter` | src/entities/characters.ts:45-59 | a new character has the given role, inclusion flag and type, number -1, is neither killed nor out of its final vote, and is unassigned and shared exactly for Gravekeeper, Gossipmonger and Ravenkeeper |
| `Characters.FindRole` | src/components/AtNightScreen.tsx:77 | the role lookup finds a character exactly when one with that role has a player, and what it finds is the first such roster member in roster order |
| `Characters.FindKind` | src/components/AtNightScreen.tsx:49 | the minion lookup finds a character exactly when a minion has a player, and then it is the first such minion in roster order |
| `Characters.FindTrait` | src/components/StartGameScreen.tsx:337 | the trait lookup finds a trait exactly when one with that role has a player, and then it is the first such trait |
| `Characters.CharacterOf` | src/components/StartGameScreen.tsx:32-34 | the lookup by player finds a character exactly when one has that player, and then it is the first character with that player |
| `Characters.AlignmentPartition` | src/entities/characters.ts:69-75 | every character is exactly one of good and evil, and evil means minion, villain or evil outsider |
| `Characters.Trait.IsDrunk` | src/entities/characters.ts:28-30 | a trait is drunk when a Drunk trait has its player, undefined included |
| `Characters.Character.Unused` | src/entities/characters.ts:61-63 | a character is unused when its player is not truthy |
| `Characters.Character.IsDrunk` | src/entities/characters.ts:65-67 | the Drunk-trait lookup by player; `Characters.IsDrunkMeaning` states it |
| `Characters.Character.IsGood` | src/entities/characters.ts:69-71 | good means townsfolk or good outsider; `Characters.AlignmentPartition` states it |
| `Characters.Character.IsEvil` | src/entities/characters.ts:73-75 | evil means not good; `Characters.AlignmentPartition` states it |
| `Characters.Character.RegistersAsEvil` | src/entities/characters.ts:77-79 | evil, or holding a Recluse trait's player; `Characters.RegistersAsEvilMeaning` states it |
| `Characters.IsDrunkMeaning` | src/entities/characters.ts:65-67 | a character is drunk exactly when a Drunk trait has its player |
| `Characters.RegistersAsEvilMeaning` | src/entities/characters.ts:77-79 | a character registers as evil exactly when it is evil or a Recluse trait has its player; evil always registers |
| `Shuffle.Swap` | src/utils/shuffle.ts:4-6 | the three-assignment swap keeps the length |
| `Shuffle.ShuffleFromPermutes` | src/utils/shuffle.ts:2-7 | each remaining step of the shuffle keeps the length and the multiset of elements |
| `Shuffle.ShuffledPermutes` | src/utils/shuffle.ts:1-8 | the shuffle is a permutation of its input, for every sequence of random draws |
| `Shuffle.ShortUnchanged` | src/utils/shuffle.ts:2 | an array of length 0 or 1 is left as it is |
| `Shuffle.ShuffleArray` | src/utils/shuffle.ts:1-8 | the in-place loop leaves the array equal to the shuffle of its old contents, a permutation of them |
| `Shuffle.Range` | src/utils/shuffle.ts:11-14 | the pushed range has `end - start + 1` entries (none when `end < start`), the k-th being `start + k` |
| `Shuffle.DistinctCountsOnce` | src/utils/shuffle.ts:10-17 | a sequence without repeats holds each value at most once |
| `Shuffle.RepeatCountsTwice` | src/utils/shuffle.ts:10-17 | a value at two positions occurs at least twice |
| `Shuffle.PermutationKeepsDistinct` | src/utils/shuffle.ts:1-8 | a permutation of a sequence without repeats has none |
| `Shuffle.RangeMembers` | src/utils/shuffle.ts:11-14 | the range holds exactly the integers from start to end, each once |
| `Shuffle.ShuffledRange` | src/utils/shuffle.ts:10-17 | the shuffled range holds exactly the integers from start to end, each once |
| `Shuffle.ShuffleNumberRange` | src/utils/shuffle.ts:10-17 | `shuffleNumberRange` returns a permutation of `start..end`: right length, every value in range, no repeats, empty when `end < start` |
| `CharacterRecord.EditPlayer` | src/components/CharacterRecord.tsx:49-54 | editing the player sets it to the typed text, clears the share flag and changes nothing else |
| `CharacterRecord.ToggleKilled` | src/components/CharacterRecord.tsx:55-59 | the Killed box flips `killed` only, and flipping twice restores the character |
| `CharacterRecord.ToggleFinalVote` | src/components/CharacterRecord.tsx:60-64 | the Final Vote box flips `finalVoteUsed` only, and flipping twice restores the character |
| `CharacterRecord.ToggleShare` | src/components/CharacterRecord.tsx:65-76 | the Share Unused box flips the share flag only, and flipping twice restores the character |
| `CharacterRecord.ControlsFor` | src/components/CharacterRecord.tsx:40-76 | Killed is always offered; Share is enabled exactly for an unassigned good character; Final Vote is enabled exactly when the character is killed; the kill-only row hides the player input, Final Vote and Share |
| `AtNight.CastMembers` | src/components/AtNightScreen.tsx:47-51 | every looked-up role is a roster member with a player; the minion is missing exactly when no minion has a player; the Fortune Teller lookup uses the string "FortuneTeller" |
| `AtNight.HeroStopMeaning` | src/components/AtNightScreen.tsx:60-67 | the Hero stops a villain exactly when its pick has the villain's own player and the Hero is neither Drunk by trait nor drunk or poisoned tonight; the message names the Hero's player |
| `AtNight.FirstWaitNone` | src/components/AtNightScreen.tsx:573-577 | the chain of waits is empty exactly when no wait condition holds |
| `AtNight.FirstWaitApplies` | src/components/AtNightScreen.tsx:573-577 | the wait shown applies, and no reason earlier in the chain does |
| `AtNight.FirstWaitIsHighestPriority` | src/components/AtNightScreen.tsx:573-577 | the chain shows a wait exactly when it applies and no earlier one (Bard, Poisoner, Cleric, Hero, Mad Magician, Grim Reaper, Vampire, Assassin) does |
| `AtNight.ComputeVillainKill` | src/components/AtNightScreen.tsx:468-486 | the kill the method leaves is the last unstopped villain choice, cleared when the Bard, not drunk or poisoned tonight, has two good picks covering its player, or the Cleric, not drunk or poisoned tonight, picked its player |
| `AtNight.GetResultingDeaths` | src/components/AtNightScreen.tsx:461-489 | the death list is the executed, then the assassinated, then the surviving kill, at most three |
| `AtNight.DeathListShape` | src/components/AtNightScreen.tsx:461-489 | the executed character comes first, the Assassin's pick next (itself when it skipped), and a character is listed exactly when it is one of those or the surviving kill |
| `AtNight.BlockingMeaning` | src/components/AtNightScreen.tsx:479-486 | the raw kill survives exactly when neither the Bard nor the Cleric blocks it, and either block removes it |
| `AtNight.IsTempDrunk` | src/components/AtNightScreen.tsx:53-58 | a character is drunk tonight when its player is the Bard's drunk pick or the Poisoner's pick, players compared only; `AtNight.NoDrunkDisablesBardBlock` and `AtNight.HeroStopMeaning` state its use |
| `AtNight.HeroStoppedVillain` | src/components/AtNightScreen.tsx:60-67 | the Hero's verdict on one villain; its meaning is stated by `AtNight.HeroStopMeaning` |
| `AtNight.Flags` | src/components/AtNightScreen.tsx:98-394 | the "must wait" condition of each role; `AtNight.FirstWaitNone` and `AtNight.FirstWaitApplies` state what the flags decide |
| `AtNight.FirstWait` | src/components/AtNightScreen.tsx:573-577 | the wait shown on the death panel; its priority is stated by `AtNight.FirstWaitIsHighestPriority` |
| `AtNight.RawVillainKill` | src/components/AtNightScreen.tsx:468-477 | the raw villain kill is always one of the three villains' choices; the priority is stated by `AtNight.RawKillPriority` |
| `AtNight.SurvivingKill` | src/components/AtNightScreen.tsx:478-486 | the surviving kill is the raw kill or nothing; `AtNight.BlockingMeaning` states when it survives |
| `AtNight.ExpectedDeaths` | src/components/AtNightScreen.tsx:461-489 | at most three deaths; their order is stated by `AtNight.DeathListShape` |
| `AtNight.NightView` | src/components/AtNightScreen.tsx:43-459 | the screen as a function of the roster, traits and choices; `AtNight.ResolveNight` is proved equal to it |
| `AtNight.NightViewWith` | src/components/AtNightScreen.tsx:301-459 | the screen once the roles are looked up; `AtNight.ResolveNightWith` is proved equal to it |
| `AtNight.NoDrunkDisablesBardBlock` | src/components/AtNightScreen.tsx:186-193 | a drunk pick with the Bard's player, such as the "No drunk" snapshot of the Bard even after the roster's Bard has changed, makes the Bard drunk tonight, so it blocks nothing |
| `AtNight.RawKillPriority` | src/components/AtNightScreen.tsx:468-477 | the Vampire's counted choice beats the Grim Reaper's, which beats the Mad Magician's; the kill is always one of their set choices; if the Hero stops all three, there is no kill |
| `AtNight.HeroInterceptionSavesTarget` | src/components/AtNightScreen.tsx:468-477 | when the Hero stops the only villain who chose, the deaths are only the executed and the assassinated |
| `AtNight.KillIgnoresExecution` | src/components/AtNightScreen.tsx:329-356 | changing who was executed today never changes the recorded villain kill |
| `AtNight.CountAbility` | src/components/AtNightScreen.tsx:407-419 | `countAbility` yields 0 or 1 |
| `AtNight.CountAbilityMeaning` | src/components/AtNightScreen.tsx:407-419 | a player counts 1 exactly when some earlier prompt has that player and the first such holder did not skip (the Assassin or Grim Reaper choosing itself) |
| `AtNight.DreamerShownMeaning` | src/components/AtNightScreen.tsx:396-403 | a prompt for the Dreamer appears exactly when the Dreamer is alive; it shows the count exactly when it waits for neither the Bard nor the Poisoner |
| `AtNight.DreamerCountMeaning` | src/components/AtNightScreen.tsx:398-400 | the Dreamer's count is the number of roster positions whose character is killed and is evil or shares its player with the Recluse trait; it is at most the number of killed characters |
| `AtNight.BedmakerCountBounds` | src/components/AtNightScreen.tsx:405-456 | the Bedmaker's count appears exactly when no wait applies and both picks are set, and it is at most 2 |
| `AtNight.PromptsWellHeldWith` | src/components/AtNightScreen.tsx:77-456 | for any cast drawn from the roster, every prompt is well held |
| `AtNight.PromptsWellHeld` | src/components/AtNightScreen.tsx:43-459 | every night prompt is held by a roster member with a player, and only the Mad Magician, Grim Reaper and Vampire are prompted while killed |
| `AtNight.MissingMinionBlocksNight` | src/components/AtNightScreen.tsx:301-394 | the screen becomes "requires a minion" exactly when no minion has a player and a Mad Magician, Grim Reaper or Vampire is in play, naming the Mad Magician first |
| `AtNight.DeathsShownOnlyWithoutWaits` | src/components/AtNightScreen.tsx:570-577 | the death list is shown exactly when no wait applies, and otherwise the shown wait applies |
| `AtNight.PushChoicePrompts` | src/components/AtNightScreen.tsx:77-198 | the Poisoner, Spy, Assassin and Bard pushes produce exactly their prompt segment |
| `AtNight.PushInformedPrompts` | src/components/AtNightScreen.tsx:209-298 | the Gravekeeper, Fortune Teller, Hero and Cleric pushes append exactly their prompt segment |
| `AtNight.PushVillainPrompts` | src/components/AtNightScreen.tsx:301-394 | the Mad Magician, Grim Reaper and Vampire pushes stop with the first villain lacking a minion, and otherwise append exactly the villains' prompts |
| `AtNight.ResolveNight` | src/components/AtNightScreen.tsx:43-459 | the component's push-by-push computation, early returns included, yields the night view of the roster, traits and choices |
| `AtNight.ResolveNightWith` | src/components/AtNightScreen.tsx:301-459 | the same, for a cast already looked up |
| `StartGame.SetupCastMembers` | src/components/StartGameScreen.tsx:44-48 | every looked-up character and trait belongs to the game and has a player; the minion is a minion and the villain a villain |
| `StartGame.SharedRolesMeaning` | src/components/StartGameScreen.tsx:48 | the roles offered to the villain are those of the unassigned, shareable characters, one per character |
| `StartGame.TeamPrompts` | src/components/StartGameScreen.tsx:54-83 | at most two team prompts, and some exactly when a villain is in play |
| `StartGame.GossipResponse` | src/components/StartGameScreen.tsx:96-107 | the Gossipmonger's answer; `StartGame.GossipCountsEvil` states it |
| `StartGame.SetupBlocker` | src/components/StartGameScreen.tsx:50-52 | the first diagnostic that applies; `StartGame.SetupBlockerMeaning` states the order |
| `StartGame.VillainBlocker` | src/components/StartGameScreen.tsx:391-431 | the villains' diagnostics; `StartGame.SetupBlockerMeaning` and `StartGame.PushVillainPrompts` state them |
| `StartGame.SetupView` | src/components/StartGameScreen.tsx:27-481 | the screen as a function of the roster, traits, choices and draws; `StartGame.ResolveSetup` is proved equal to it |
| `StartGame.SetupViewWith` | src/components/StartGameScreen.tsx:50-481 | the screen once the roles are looked up; `StartGame.ResolveSetupWith` is proved equal to it |
| `StartGame.SetupBlockerMeaning` | src/components/StartGameScreen.tsx:50-52 | prompts are shown exactly when three characters are shared, an Investigator, Mad Magician or Grim Reaper has a minion beside it, and a Vampire has none |
| `StartGame.GossipCountsEvil` | src/components/StartGameScreen.tsx:94-107 | the Gossipmonger's answer appears exactly when both picks are set, and it counts how many picks register as evil |
| `StartGame.ShuffledPair` | src/components/StartGameScreen.tsx:147-151 | shuffling a pair swaps it exactly when the draw for index 1 is 0, and it keeps both entries |
| `StartGame.ShufflePair` | src/components/StartGameScreen.tsx:147-151 | shuffling a fresh two-cell array returns a permutation of the pair |
| `StartGame.MinionAndVillainLearnEachOther` | src/components/StartGameScreen.tsx:54-72 | with both present, the first two prompts tell the minion the villain's player and role, and the villain the minion's and the shared roles |
| `StartGame.IntroIffAssigned` | src/components/StartGameScreen.tsx:85-92 | a role's introduction appears exactly when some character of that role has a player |
| `StartGame.LoneVillainLearnsSharedRoles` | src/components/StartGameScreen.tsx:73-83 | a villain without a minion gets one team prompt, the shared roles, and no pairing prompt is shown |
| `StartGame.NoVillainNoTeamPrompt` | src/components/StartGameScreen.tsx:54-83 | without a villain there is no team prompt |
| `StartGame.InvestigatorLearnsMinionAmongTwo` | src/components/StartGameScreen.tsx:142-169 | an Investigator in play gets exactly one prompt: while no player is picked, the gamemaster is asked to pick; once picked, the variant holds the two interpolated values, the minion and the picked player's character, in shuffled order, and the minion's role |
| `StartGame.MedicineDoctorLearnsTargetAmongTwo` | src/components/StartGameScreen.tsx:181-218 | a Medicine Doctor in play gets exactly one prompt: while either pick is unset, the gamemaster is asked to pick; once both are set, the variant holds the two interpolated values, the two picked characters, in shuffled order, and the target's role (no role when no character has the target's player) |
| `StartGame.SetupPromptsHeldWith` | src/components/StartGameScreen.tsx:54-481 | for any cast drawn from the game, every prompt has a holder in the game |
| `StartGame.SetupPromptsHeld` | src/components/StartGameScreen.tsx:27-481 | every setup prompt belongs to a character or trait of the game that has a player |
| `StartGame.ThreeSharedRolesWhenShown` | src/components/StartGameScreen.tsx:48-52 | prompts imply exactly three shared roles, and any other count gives the "share three" diagnostic |
| `StartGame.PushOpeningPrompts` | src/components/StartGameScreen.tsx:54-140 | the team, Gravekeeper and Gossipmonger pushes produce exactly the opening segment |
| `StartGame.ComputeMedicineDoctorPrompt` | src/components/StartGameScreen.tsx:181-218 | the Medicine Doctor push produces exactly its prompt |
| `StartGame.ComputeGrandparentPrompt` | src/components/StartGameScreen.tsx:231-251 | the Grandparent push produces exactly the prompt whose meaning `StartGame.GrandparentLearnsGrandchild` states |
| `StartGame.GrandparentLearnsGrandchild` | src/components/StartGameScreen.tsx:231-237 | a Grandparent in play gets exactly one prompt: while no grandchild is picked, the gamemaster is asked to pick; once picked, it learns the picked player and the role of the first character with that player, or no role when none has it |
| `StartGame.FortuneTellerIntroOncePicked` | src/components/StartGameScreen.tsx:308-312 | a Fortune Teller in play gets exactly one prompt: its introduction exactly when a red herring is picked, otherwise the request to the gamemaster |
| `StartGame.PushTownPrompts` | src/components/StartGameScreen.tsx:171-304 | the Bed Maker through Townguard pushes produce exactly the town segment |
| `StartGame.PushLatePrompts` | src/components/StartGameScreen.tsx:306-389 | the Fortune Teller through Assassin pushes produce exactly the late segment |
| `StartGame.PushClosingPrompts` | src/components/StartGameScreen.tsx:433-480 | the Cleric through Evil Twin pushes produce exactly the closing segment |
| `StartGame.PushVillainPrompts` | src/components/StartGameScreen.tsx:391-431 | the Mad Magician and Grim Reaper pushes stop when no minion is in play, the Vampire's when one is, and otherwise they produce exactly the villains' prompts |
| `StartGame.ResolveSetup` | src/components/StartGameScreen.tsx:27-481 | the component's push-by-push computation, early returns included, yields the setup view of the roster, traits, choices and draws |
| `StartGame.ResolveSetupWith` | src/components/StartGameScreen.tsx:50-481 | the same, for a cast already looked up |
| `Game.Numbers` | src/components/CharacterRecord.tsx:40-43 | the numbers beside the roster, one per character and then one per trait (the trait rows show theirs at `src/components/TraitRecord.tsx:17-20`) |
| `Game.IncludedCharacters` | src/components/Game.tsx:8-33 | play keeps 22 of the 24 roles in catalog order: all but Vampire Spawn and Vampire |
| `Game.IncludedTraits` | src/components/Game.tsx:35-40 | play keeps 3 of the 4 traits: all but Lucky |
| `Game.CatalogNumbering` | src/components/Game.tsx:71-79 | numbering the catalog gives 22 characters and 3 traits, numbered from 25 draws |
| `Game.NumberCharacters` | src/components/Game.tsx:75 | the loop numbers the k-th included character with the k-th number and changes nothing else |
| `Game.NumberTraits` | src/components/Game.tsx:76 | the loop numbers the k-th included trait with the number after the characters' and changes nothing else |
| `Game.NumbersHandedOut` | src/components/Game.tsx:74-76 | reading the numbers off the numbered roster gives back the range handed out |
| `Game.NumberedRange` | src/components/Game.tsx:74-76 | a roster numbered by the shuffled range `1..n+m` carries every number of the range once, and that is the numbering the effect promises |
| `Game.NumberRoster` | src/components/Game.tsx:71-79 | the start-up effect numbers the included entries from `1..n+m`, every number in range and none repeated |
| `Game.CatalogRolesNamed` | src/components/Game.tsx:8-33 | every catalog role is one of the 24 role names |
| `Game.MisspeltLookupsFindNothing` | src/components/AtNightScreen.tsx:216 | on a roster drawn from the catalog, the night screen never finds a Fortune Teller and the setup screen never finds a Bedmaker |
| `Game.Replaced` | src/components/Game.tsx:81-85 | assigning at an index replaces that entry only; index -1 changes no entry |
| `Game.ReplacedUndone` | src/components/Game.tsx:81-85 | putting the old entry back undoes a replacement |
| `Game.UpdateByPlayerTargets` | src/components/Game.tsx:87-94 | updating by player replaces the first character with that player and no other, or nothing when none has it |
| `Game.UpdateByPlayerKeepsPlayers` | src/components/Game.tsx:87-94 | updating by player leaves the roster's players, in order, unchanged |
| `Game.KillToggleByPlayer` | src/components/AtNightScreen.tsx:497 | a click on a death-list row replaces that player's first character with the snapshot shown, `killed` flipped from the snapshot's value, and changes no other entry |
| `Game.KillClick` | src/components/AtNightScreen.tsx:497-498 | a death-list click (the Killed box of `CharacterRecord.tsx:55-59` handed to `updateCharacterWithoutIndex`) keeps the roster's length and every entry's player |
| `Game.StaleKillToggleSticks` | src/components/AtNightScreen.tsx:461-498 | the snapshot is never refreshed, so a second click on an unkilled snapshot leaves the player killed and the roster as the first click left it |
| `Game.ResetNightHasNoDeaths` | src/components/AtNightScreen.tsx:506-521 | after the reset, no one is listed as dead and no villain kill is recorded |
| `Game.GameState.constructor` | src/components/Game.tsx:47-69 | the component starts with an empty roster and every choice slot unset |
| `Game.GameState.Initialize` | src/components/Game.tsx:71-79 | the effect stores the numbered roster and traits, every number in range, none repeated, and changes no choice |
| `Game.GameState.UpdateCharacter` | src/components/Game.tsx:81-85 | `updateCharacter` replaces the entry at the index and changes no other state |
| `Game.GameState.UpdateCharacterWithoutIndex` | src/components/Game.tsx:87-94 | `updateCharacterWithoutIndex` replaces the first character with the same player, keeps the roster's players, and changes no other state |
| `Game.GameState.UpdateTrait` | src/components/Game.tsx:96-100 | `updateTrait` replaces the entry at the index and changes no other state |
| `Game.GameState.ResetNight` | src/components/AtNightScreen.tsx:506-521 | the night reset clears every night choice and keeps the roster and the setup choices |

## Left out

- Rendering: JSX layout, styles, prompt wording and the select controls are not modelled. A prompt is a variant carrying the values it shows.
- `Math.random` is a parameter (`picks`); the fairness of the shuffle is a property of the generator, not of the code.
- React hooks, screen switching and `PlayerScreen.tsx` are not modelled: they only route values between the screens. `CopyText.tsx` and `StorytellerText.tsx` are display components outside this model. `TraitRecord.tsx` is not modelled either: its player input copies the trait, sets `player` and hands the copy to its `update` callback, and `Game.GameState.UpdateTrait` models the roster update that callback performs, but the row's own input handling is left out.
- `console.log` and `console.error` in `updateCharacterWithoutIndex` are I/O and are left out.
- The individual `set…Choice` setters are plain state assignments. Only the reset that clears them all is modelled (`Game.GameState.ResetNight`).
- Game.GameState.Initialize: takes the catalog as parameters rather than reading the module constants; `Game.CatalogNumbering` states what it gives on `AllCharacters` and `AllTraits`.
- Game.GameState.Initialize: the source numbers the catalog's own objects in place (`forEach` assigns `randomNumber`), so the numbers also show through the exported `allCharacters`. The model numbers values, so it does not capture that aliasing.
- Game.GameState.UpdateCharacter: requires `-1 <= index < |characters|`. Callers only pass a `map` index or a `findIndex` result; an index past the end, which would grow the JavaScript array, is not modelled.
- Game.GameState.UpdateTrait: same index range, for the same reason.
- The setup screen's Townguard choices are stored but never read by the screen logic, so they appear only in `SetupChoices`.
- The Fortune Teller's night choices are stored but do not change any prompt or the death list, so they appear only in `NightChoices`.
- The prompt for "Gamemaster: select" has one variant (`GamemasterSelect`) for every role that shows one; which option list the select offers is rendering.
