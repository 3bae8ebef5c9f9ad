/**
 * The roster entities: characters (role slots) and traits (tags attached to
 * a player), with the alignment and drunkenness predicates every resolver
 * consults.
 */
module Characters {
  import opened Wrappers
  import opened ArrayOps

  /** JavaScript truthiness of an optional player name: set and not empty. */
  predicate Truthy(player: Option<string>) {
    player.Some? && player.value != ""
  }

  /** The first trait with role `role` bound to `player`, if any. */
  function TraitHolding(traits: seq<Trait>, role: string, player: Option<string>): Option<Trait> {
    Find(traits, (t: Trait) => t.role == role && t.player == player)
  }

  datatype Trait = Trait(role: string, includeInGame: bool, randomNumber: int, player: Option<string>)
  {
    /** The copy is built through the constructor, then its fields are restored. */
    function Copy(): (r: Trait)
      ensures r == this
    {
      var tr := NewTrait(role, includeInGame);
      tr.(randomNumber := randomNumber, player := player)
    }

    predicate IsDrunk(traits: seq<Trait>) {
      TraitHolding(traits, "Drunk", player).Some?
    }
  }

  /** The player name the constructor presets for a trait (debugging defaults). */
  function DebugTraitPlayer(role: string): string {
    if role == "Saint" then "PInvestigator"
    else if role == "Recluse" then "PBedmaker"
    else "PMedicine Doctor"
  }

  /** `new Trait(role, includeInGame)`. */
  function NewTrait(role: string, includeInGame: bool): (t: Trait)
    ensures t.role == role && t.includeInGame == includeInGame
    ensures t.randomNumber == -1
    ensures Truthy(t.player)
  {
    Trait(role, includeInGame, -1, Some(DebugTraitPlayer(role)))
  }

  datatype CharacterType = Townsfolk | Minion | Villain | OutsiderGood | OutsiderEvil

  datatype Character = Character(
    includeInGame: bool,
    randomNumber: int,
    killed: bool,
    finalVoteUsed: bool,
    role: string,
    player: Option<string>,
    kind: CharacterType,
    sharedWithVillainIfUnused: bool)
  {
    /** No player assigned: the role is not in play. */
    predicate Unused() {
      !Truthy(player)
    }

    predicate IsDrunk(traits: seq<Trait>) {
      TraitHolding(traits, "Drunk", player).Some?
    }

    predicate IsGood() {
      kind == Townsfolk || kind == OutsiderGood
    }

    predicate IsEvil() {
      !IsGood()
    }

    predicate RegistersAsEvil(traits: seq<Trait>) {
      IsEvil() || TraitHolding(traits, "Recluse", player).Some?
    }

    /** The copy is built through the constructor, then its fields are restored. */
    function Copy(): (r: Character)
      ensures r == this
    {
      var ch := NewCharacter(role, includeInGame, kind);
      ch.(randomNumber := randomNumber, killed := killed, finalVoteUsed := finalVoteUsed,
          sharedWithVillainIfUnused := sharedWithVillainIfUnused, player := player)
    }
  }

  /** Whether the constructor leaves a role unassigned and shared (debugging defaults). */
  predicate DebugUnassigned(role: string) {
    role == "Gravekeeper" || role == "Gossipmonger" || role == "Ravenkeeper"
  }

  /** `new Character(role, includeInGame, type)`. */
  function NewCharacter(role: string, includeInGame: bool, kind: CharacterType): (c: Character)
    ensures c.role == role && c.includeInGame == includeInGame && c.kind == kind
    ensures c.randomNumber == -1 && !c.killed && !c.finalVoteUsed
    ensures c.Unused() <==> DebugUnassigned(role)
    ensures c.sharedWithVillainIfUnused <==> DebugUnassigned(role)
  {
    if DebugUnassigned(role) then Character(includeInGame, -1, false, false, role, None, kind, true)
    else Character(includeInGame, -1, false, false, role, Some("P" + role), kind, false)
  }

  /** What a prompt is attached to: a character or a trait. */
  datatype Entity = CharacterEntity(character: Character) | TraitEntity(tag: Trait)
  {
    function Player(): Option<string> {
      match this
      case CharacterEntity(c) => c.player
      case TraitEntity(t) => t.player
    }

    function Role(): string {
      match this
      case CharacterEntity(c) => c.role
      case TraitEntity(t) => t.role
    }
  }

  /** `chs.find(c => c.role === role && c.player)`: the first assigned character with exactly this role. */
  function FindRole(chs: seq<Character>, role: string): (r: Option<Character>)
    ensures r.Some? <==> exists i :: 0 <= i < |chs| && chs[i].role == role && Truthy(chs[i].player)
    ensures r.Some? ==> r.value in chs && r.value.role == role && Truthy(r.value.player)
    ensures r.Some? ==> exists i :: 0 <= i < |chs| && chs[i] == r.value && forall k :: 0 <= k < i ==> !(chs[k].role == role && Truthy(chs[k].player))
  {
    var p := (c: Character) => c.role == role && Truthy(c.player);
    Find(chs, p)
  }

  /** `chs.find(c => c.type === kind && c.player)`: the first assigned character of this type. */
  function FindKind(chs: seq<Character>, kind: CharacterType): (r: Option<Character>)
    ensures r.Some? <==> exists i :: 0 <= i < |chs| && chs[i].kind == kind && Truthy(chs[i].player)
    ensures r.Some? ==> r.value in chs && r.value.kind == kind && Truthy(r.value.player)
    ensures r.Some? ==> exists i :: 0 <= i < |chs| && chs[i] == r.value && forall k :: 0 <= k < i ==> !(chs[k].kind == kind && Truthy(chs[k].player))
  {
    var p := (c: Character) => c.kind == kind && Truthy(c.player);
    Find(chs, p)
  }

  /** `trs.find(t => t.role === role && t.player)`: the first assigned trait with this role. */
  function FindTrait(trs: seq<Trait>, role: string): (r: Option<Trait>)
    ensures r.Some? <==> exists i :: 0 <= i < |trs| && trs[i].role == role && Truthy(trs[i].player)
    ensures r.Some? ==> r.value in trs && r.value.role == role && Truthy(r.value.player)
    ensures r.Some? ==> exists i :: 0 <= i < |trs| && trs[i] == r.value && forall k :: 0 <= k < i ==> !(trs[k].role == role && Truthy(trs[k].player))
  {
    var p := (t: Trait) => t.role == role && Truthy(t.player);
    Find(trs, p)
  }

  /** `chs.find(c => c.player === player)`: the first character with exactly this player, set or not. */
  function CharacterOf(chs: seq<Character>, player: Option<string>): (r: Option<Character>)
    ensures r.Some? <==> exists i :: 0 <= i < |chs| && chs[i].player == player
    ensures r.Some? ==> r.value in chs && r.value.player == player
    ensures r.Some? ==> exists i :: 0 <= i < |chs| && chs[i] == r.value && forall k :: 0 <= k < i ==> !(chs[k].player == player)
  {
    var p := (c: Character) => c.player == player;
    Find(chs, p)
  }

  /** A looked-up character, when there is one, is a roster member with a player. */
  predicate InRoster(c: Option<Character>, chs: seq<Character>) {
    c.Some? ==> c.value in chs && Truthy(c.value.player)
  }

  /** A looked-up trait, when there is one, is one of the traits and has a player. */
  predicate InTraits(t: Option<Trait>, trs: seq<Trait>) {
    t.Some? ==> t.value in trs && Truthy(t.value.player)
  }

  /** Good and evil split the five character types: townsfolk and good outsiders against the rest. */
  lemma AlignmentPartition(c: Character)
    ensures c.IsGood() != c.IsEvil()
    ensures c.IsEvil() <==> c.kind in {Minion, Villain, OutsiderEvil}
  {
  }

  /** A character is drunk exactly when a Drunk trait is bound to its own player. */
  lemma IsDrunkMeaning(c: Character, traits: seq<Trait>)
    ensures c.IsDrunk(traits) <==> exists i :: 0 <= i < |traits| && traits[i].role == "Drunk" && traits[i].player == c.player
  {
  }

  /** Registering as evil is being evil or sharing a player with a Recluse trait; every evil character registers. */
  lemma RegistersAsEvilMeaning(c: Character, traits: seq<Trait>)
    ensures c.RegistersAsEvil(traits) <==>
      c.IsEvil() || exists i :: 0 <= i < |traits| && traits[i].role == "Recluse" && traits[i].player == c.player
    ensures c.IsEvil() ==> c.RegistersAsEvil(traits)
  {
  }
}
