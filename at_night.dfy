/**
 * The night screen: from the roster, the traits and tonight's choices it
 * derives who is temporarily drunk, whether the Hero stops a villain, which
 * villain kill survives, the ordered death list, the "must wait" gate and the
 * per-role prompts (with the Dreamer and Bedmaker counts).
 */
module AtNight {
  import opened Wrappers
  import opened ArrayOps
  import opened Characters

  /** A choice slot: a snapshot of the chosen character, or unset. */
  type Pick = Option<Character>

  /** Tonight's choices, one slot per acting role (two for pair choices). */
  datatype NightChoices = NightChoices(
    executedToday: Pick,
    bard: (Pick, Pick),
    drunkFromBard: Pick,
    fortuneTeller: (Pick, Pick),
    poisoner: Pick,
    spy: Pick,
    hero: Pick,
    cleric: Pick,
    madMagician: Pick,
    grimReaper: Pick,
    vampireSpawn: Pick,
    vampire: Pick,
    assassin: Pick,
    bedmaker: (Pick, Pick))

  /** Every slot unset: the state `reset` leaves behind and the one the game starts with. */
  const NoChoices: NightChoices := NightChoices(
    None, (None, None), None, (None, None), None, None, None, None,
    None, None, None, None, None, (None, None))

  /** `pick?.player` */
  function PlayerOf(p: Option<Character>): Option<string> {
    if p.Some? then p.value.player else None
  }

  /** `pick?.role` */
  function RoleOf(p: Pick): Option<string> {
    if p.Some? then Some(p.value.role) else None
  }

  /** `pick?.player` is truthy: the slot holds a character with a player. */
  predicate Chosen(p: Pick) {
    Truthy(PlayerOf(p))
  }

  /** `pick?.isGood` */
  predicate GoodPick(p: Pick) {
    p.Some? && p.value.IsGood()
  }

  /** A role that was found in play and is not killed. */
  predicate Acts(c: Option<Character>) {
    c.Some? && !c.value.killed
  }

  // ---------------------------------------------------------------------
  // The cast: the screen's role lookups

  /**
   * The characters the screen looks up: for each acting role, the first
   * character of that role with a player, and the first minion with a player.
   */
  datatype Cast = Cast(
    poisoner: Option<Character>,
    spy: Option<Character>,
    assassin: Option<Character>,
    bard: Option<Character>,
    gravekeeper: Option<Character>,
    fortuneTeller: Option<Character>,
    hero: Option<Character>,
    cleric: Option<Character>,
    madMagician: Option<Character>,
    grimReaper: Option<Character>,
    vampire: Option<Character>,
    dreamer: Option<Character>,
    bedmaker: Option<Character>,
    minion: Option<Character>)

  /** The lookups of the screen; the Fortune Teller is looked up under the role string "FortuneTeller". */
  function CastOf(chs: seq<Character>): Cast {
    Cast(
      poisoner := FindRole(chs, "Poisoner"),
      spy := FindRole(chs, "Spy"),
      assassin := FindRole(chs, "Assassin"),
      bard := FindRole(chs, "Bard"),
      gravekeeper := FindRole(chs, "Gravekeeper"),
      fortuneTeller := FindRole(chs, "FortuneTeller"),
      hero := FindRole(chs, "Hero"),
      cleric := FindRole(chs, "Cleric"),
      madMagician := FindRole(chs, "Mad Magician"),
      grimReaper := FindRole(chs, "Grim Reaper"),
      vampire := FindRole(chs, "Vampire"),
      dreamer := FindRole(chs, "Dreamer"),
      bedmaker := FindRole(chs, "Bedmaker"),
      minion := FindKind(chs, Minion))
  }

  /** Every character of the cast is in the roster and has a player. */
  predicate CastInRoster(c: Cast, chs: seq<Character>) {
    && InRoster(c.poisoner, chs) && InRoster(c.spy, chs) && InRoster(c.assassin, chs)
    && InRoster(c.bard, chs) && InRoster(c.gravekeeper, chs) && InRoster(c.fortuneTeller, chs)
    && InRoster(c.hero, chs) && InRoster(c.cleric, chs) && InRoster(c.madMagician, chs)
    && InRoster(c.grimReaper, chs) && InRoster(c.vampire, chs) && InRoster(c.dreamer, chs)
    && InRoster(c.bedmaker, chs) && InRoster(c.minion, chs)
  }

  /**
   * Each looked-up character is a roster member with a player; the minion is
   * a minion, and it is missing only when no minion in the roster has a
   * player; each role is missing only when no roster character with a player
   * has it.
   */
  lemma CastMembers(chs: seq<Character>)
    ensures CastInRoster(CastOf(chs), chs)
    ensures CastOf(chs).minion.Some? ==> CastOf(chs).minion.value.kind == Minion
    ensures CastOf(chs).minion.None? <==> forall i :: 0 <= i < |chs| && chs[i].kind == Minion ==> !Truthy(chs[i].player)
    ensures CastOf(chs).hero.Some? ==> CastOf(chs).hero.value.role == "Hero"
    ensures CastOf(chs).madMagician.None? <==>
      forall i :: 0 <= i < |chs| && chs[i].role == "Mad Magician" ==> !Truthy(chs[i].player)
    ensures CastOf(chs).fortuneTeller.Some? ==> CastOf(chs).fortuneTeller.value.role == "FortuneTeller"
  {
  }

  // ---------------------------------------------------------------------
  // Drunkenness and the Hero

  /** Drunk for tonight: the character's player is the Bard's drunk pick's or the Poisoner's target's. */
  predicate IsTempDrunk(ch: Option<Character>, n: NightChoices) {
    ch.Some? && (ch.value.player == PlayerOf(n.drunkFromBard) || ch.value.player == PlayerOf(n.poisoner))
  }

  datatype HeroStop = NotStopped | Stopped(heroPlayer: Option<string>)

  /** Whether the Hero stopped `villain`; the message names the Hero's player. */
  function HeroStoppedVillain(villain: Option<Character>, c: Cast, trs: seq<Trait>, n: NightChoices): HeroStop {
    var selectedByVillain := PlayerOf(villain) == PlayerOf(n.hero);
    var heroIsDrunk := (c.hero.Some? && c.hero.value.IsDrunk(trs)) || IsTempDrunk(c.hero, n);
    if !selectedByVillain || heroIsDrunk then NotStopped else Stopped(PlayerOf(c.hero))
  }

  /**
   * The Hero stops a villain exactly when the Hero's pick has that villain's
   * own player (not the player the villain targets) and neither a Drunk trait
   * nor the drunk or poison pick falls on the Hero's player.
   */
  lemma HeroStopMeaning(villain: Option<Character>, c: Cast, trs: seq<Trait>, n: NightChoices)
    ensures HeroStoppedVillain(villain, c, trs, n).Stopped? <==>
      && PlayerOf(villain) == PlayerOf(n.hero)
      && !(c.hero.Some? && exists i :: 0 <= i < |trs| && trs[i].role == "Drunk" && trs[i].player == c.hero.value.player)
      && !(c.hero.Some? && (c.hero.value.player == PlayerOf(n.drunkFromBard) || c.hero.value.player == PlayerOf(n.poisoner)))
    ensures HeroStoppedVillain(villain, c, trs, n).Stopped? ==>
      HeroStoppedVillain(villain, c, trs, n).heroPlayer == PlayerOf(c.hero)
  {
    if c.hero.Some? {
      IsDrunkMeaning(c.hero.value, trs);
    }
  }

  // ---------------------------------------------------------------------
  // Waits

  datatype WaitReason =
    | WaitBard | WaitPoisoner
    | WaitCleric | WaitHero
    | WaitMadMagician | WaitGrimReaper | WaitVampire
    | WaitAssassin

  /** The position of a reason in the order the screen consults them. */
  function Rank(w: WaitReason): nat {
    match w
    case WaitBard => 0
    case WaitPoisoner => 1
    case WaitCleric => 2
    case WaitHero => 3
    case WaitMadMagician => 4
    case WaitGrimReaper => 5
    case WaitVampire => 6
    case WaitAssassin => 7
  }

  /** Which "Must wait for X" conditions hold, each on its own. */
  datatype WaitFlags = WaitFlags(
    bard: bool, poisoner: bool, cleric: bool, hero: bool,
    madMagician: bool, grimReaper: bool, vampire: bool, assassin: bool)

  /**
   * The acting Bard lacks a pick or the drunk pick; an acting Poisoner,
   * Cleric, Hero or Assassin lacks its pick; a Mad Magician or Grim Reaper in
   * play (killed or not) lacks its pick; a Vampire in play lacks both picks.
   */
  function Flags(c: Cast, n: NightChoices): WaitFlags {
    WaitFlags(
      bard := Acts(c.bard) && (!Chosen(n.bard.0) || !Chosen(n.bard.1) || !Chosen(n.drunkFromBard)),
      poisoner := Acts(c.poisoner) && !Chosen(n.poisoner),
      cleric := Acts(c.cleric) && !Chosen(n.cleric),
      hero := Acts(c.hero) && !Chosen(n.hero),
      madMagician := c.madMagician.Some? && !Chosen(n.madMagician),
      grimReaper := c.grimReaper.Some? && !Chosen(n.grimReaper),
      vampire := c.vampire.Some? && !Chosen(n.vampire) && !Chosen(n.vampireSpawn),
      assassin := Acts(c.assassin) && !Chosen(n.assassin))
  }

  predicate Applies(f: WaitFlags, w: WaitReason) {
    match w
    case WaitBard => f.bard
    case WaitPoisoner => f.poisoner
    case WaitCleric => f.cleric
    case WaitHero => f.hero
    case WaitMadMagician => f.madMagician
    case WaitGrimReaper => f.grimReaper
    case WaitVampire => f.vampire
    case WaitAssassin => f.assassin
  }

  function WaitIf(f: WaitFlags, w: WaitReason): Option<WaitReason> {
    if Applies(f, w) then Some(w) else None
  }

  /** `waitForBard || waitForPoisoner` */
  function WaitForDrunks(f: WaitFlags): Option<WaitReason> {
    if f.bard then Some(WaitBard) else WaitIf(f, WaitPoisoner)
  }

  /** `waitForCleric || waitForHero` */
  function WaitForSavedFromDeath(f: WaitFlags): Option<WaitReason> {
    if f.cleric then Some(WaitCleric) else WaitIf(f, WaitHero)
  }

  /** `waitForMadMagician || waitForGrimReaper || waitForVampire` */
  function WaitForVillain(f: WaitFlags): Option<WaitReason> {
    if f.madMagician then Some(WaitMadMagician)
    else if f.grimReaper then Some(WaitGrimReaper)
    else WaitIf(f, WaitVampire)
  }

  /** The reason shown in place of a result: drunks, then saved-from-death, then villain, then assassin. */
  function FirstWait(f: WaitFlags): Option<WaitReason> {
    var drunks := WaitForDrunks(f);
    var saved := WaitForSavedFromDeath(f);
    var villain := WaitForVillain(f);
    if drunks.Some? then drunks
    else if saved.Some? then saved
    else if villain.Some? then villain
    else WaitIf(f, WaitAssassin)
  }

  /** The chain of waits shows nothing exactly when no reason applies. */
  lemma FirstWaitNone(f: WaitFlags)
    ensures FirstWait(f).None? <==> forall v :: !Applies(f, v)
  {
    if FirstWait(f).None? {
      forall v ensures !Applies(f, v) {
        match v
        case WaitBard =>
        case WaitPoisoner =>
        case WaitCleric =>
        case WaitHero =>
        case WaitMadMagician =>
        case WaitGrimReaper =>
        case WaitVampire =>
        case WaitAssassin =>
      }
    } else {
      var w := FirstWait(f).value;
      assert Applies(f, w);
    }
  }

  /** No two reasons share a rank. */
  lemma RankInjective(u: WaitReason, w: WaitReason)
    ensures Rank(u) == Rank(w) ==> u == w
  {
  }

  /** The shown reason applies, and no reason of a lower rank does. */
  lemma FirstWaitApplies(f: WaitFlags)
    ensures FirstWait(f).Some? ==>
      Applies(f, FirstWait(f).value) && forall v :: Rank(v) < Rank(FirstWait(f).value) ==> !Applies(f, v)
  {
    if FirstWait(f).Some? {
      var w := FirstWait(f).value;
      forall v | Rank(v) < Rank(w) ensures !Applies(f, v) {
        match v
        case WaitBard =>
        case WaitPoisoner =>
        case WaitCleric =>
        case WaitHero =>
        case WaitMadMagician =>
        case WaitGrimReaper =>
        case WaitVampire =>
        case WaitAssassin =>
      }
    }
  }

  /**
   * The chain of waits shows exactly the applicable reason that no
   * higher-priority reason precedes.
   */
  lemma FirstWaitIsHighestPriority(f: WaitFlags, w: WaitReason)
    ensures FirstWait(f) == Some(w) <==>
      Applies(f, w) && forall v :: Rank(v) < Rank(w) ==> !Applies(f, v)
  {
    FirstWaitApplies(f);
    if Applies(f, w) && forall v :: Rank(v) < Rank(w) ==> !Applies(f, v) {
      FirstWaitNone(f);
      var u := FirstWait(f).value;
      assert !(Rank(u) < Rank(w));
      assert !(Rank(w) < Rank(u));
      RankInjective(u, w);
    }
  }

  // ---------------------------------------------------------------------
  // The villain kill and the death list

  /** A villain's choice counts when it is set and the Hero did not stop that villain. */
  predicate KillCounts(choice: Pick, villain: Option<Character>, c: Cast, trs: seq<Trait>, n: NightChoices) {
    Chosen(choice) && HeroStoppedVillain(villain, c, trs, n).NotStopped?
  }

  /**
   * The kill before blocking: of Mad Magician, Grim Reaper and Vampire, the
   * last (in that order) whose choice counts.
   */
  function RawVillainKill(c: Cast, trs: seq<Trait>, n: NightChoices): (r: Pick)
    ensures r.Some? ==> r == n.vampire || r == n.grimReaper || r == n.madMagician
  {
    if KillCounts(n.vampire, c.vampire, c, trs, n) then n.vampire
    else if KillCounts(n.grimReaper, c.grimReaper, c, trs, n) then n.grimReaper
    else if KillCounts(n.madMagician, c.madMagician, c, trs, n) then n.madMagician
    else None
  }

  /** The Bard protects: not drunk tonight, both picks good, and the kill falls on one of them. */
  predicate BardBlocks(kill: Pick, c: Cast, n: NightChoices) {
    !IsTempDrunk(c.bard, n) &&
    GoodPick(n.bard.0) && GoodPick(n.bard.1) &&
    (PlayerOf(n.bard.0) == PlayerOf(kill) || PlayerOf(n.bard.1) == PlayerOf(kill))
  }

  /** The Cleric protects: not drunk tonight and the pick has the kill's player (the Drunk trait is not consulted). */
  predicate ClericBlocks(kill: Pick, c: Cast, n: NightChoices) {
    !IsTempDrunk(c.cleric, n) && PlayerOf(n.cleric) == PlayerOf(kill)
  }

  /** The villain kill that is recorded: the raw kill unless the Bard or the Cleric blocks it. */
  function SurvivingKill(c: Cast, trs: seq<Trait>, n: NightChoices): (r: Pick)
    ensures r.Some? ==> r == RawVillainKill(c, trs, n)
  {
    var kill := RawVillainKill(c, trs, n);
    if BardBlocks(kill, c, n) || ClericBlocks(kill, c, n) then None else kill
  }

  function OneIfChosen(p: Pick): seq<Character> {
    if Chosen(p) then [p.value] else []
  }

  /** The night's deaths: executed today, then the assassin's pick, then the surviving villain kill. */
  function ExpectedDeaths(c: Cast, trs: seq<Trait>, n: NightChoices): (r: seq<Character>)
    ensures |r| <= 3
  {
    OneIfChosen(n.executedToday) + OneIfChosen(n.assassin) + OneIfChosen(SurvivingKill(c, trs, n))
  }

  /**
   * The villain kill of `getResultingDeaths`: overwritten with each villain's
   * counted choice in turn, then cleared when the Bard or the Cleric blocks it.
   */
  method ComputeVillainKill(c: Cast, trs: seq<Trait>, n: NightChoices) returns (villainKill: Pick)
    ensures villainKill == SurvivingKill(c, trs, n)
  {
    var madMagician := c.madMagician;
    var grimReaper := c.grimReaper;
    var vampire := c.vampire;
    villainKill := None;
    if Chosen(n.madMagician) && HeroStoppedVillain(madMagician, c, trs, n).NotStopped? {
      villainKill := n.madMagician;
    }
    if Chosen(n.grimReaper) && HeroStoppedVillain(grimReaper, c, trs, n).NotStopped? {
      villainKill := n.grimReaper;
    }
    if Chosen(n.vampire) && HeroStoppedVillain(vampire, c, trs, n).NotStopped? {
      villainKill := n.vampire;
    }
    assert villainKill == RawVillainKill(c, trs, n);
    ghost var raw := villainKill;
    var bard := c.bard;
    var target := PlayerOf(villainKill);
    var bardChoices := [n.bard.0, n.bard.1];
    var protected := Find(bardChoices, (p: Pick) => PlayerOf(p) == target);
    assert protected.Some? <==> PlayerOf(n.bard.0) == target || PlayerOf(n.bard.1) == target by {
      assert bardChoices[0] == n.bard.0 && bardChoices[1] == n.bard.1;
    }
    if !IsTempDrunk(bard, n) && GoodPick(n.bard.0) && GoodPick(n.bard.1) && protected.Some? {
      villainKill := None;
    }
    assert villainKill == if BardBlocks(raw, c, n) then None else raw;
    var cleric := c.cleric;
    if !IsTempDrunk(cleric, n) && PlayerOf(n.cleric) == PlayerOf(villainKill) {
      villainKill := None;
    }
  }

  /**
   * `getResultingDeaths`: pushes the executed and assassinated characters,
   * then the villain kill when one survives.
   */
  method GetResultingDeaths(c: Cast, trs: seq<Trait>, n: NightChoices) returns (deadPlayers: seq<Character>)
    ensures deadPlayers == ExpectedDeaths(c, trs, n)
    ensures |deadPlayers| <= 3
  {
    deadPlayers := [];
    if Chosen(n.executedToday) {
      deadPlayers := deadPlayers + [n.executedToday.value];
    }
    if Chosen(n.assassin) {
      deadPlayers := deadPlayers + [n.assassin.value];
    }
    var villainKill := ComputeVillainKill(c, trs, n);
    if Chosen(villainKill) {
      deadPlayers := deadPlayers + [villainKill.value];
    }
  }

  /**
   * The death list has at most three entries, in order: the executed
   * character, the assassin's pick (including the assassin itself, the "skip"
   * choice), then the surviving villain kill.
   */
  lemma DeathListShape(c: Cast, trs: seq<Trait>, n: NightChoices)
    ensures |ExpectedDeaths(c, trs, n)| <= 3
    ensures Chosen(n.executedToday) ==> ExpectedDeaths(c, trs, n)[0] == n.executedToday.value
    ensures Chosen(n.assassin) ==>
      ExpectedDeaths(c, trs, n)[if Chosen(n.executedToday) then 1 else 0] == n.assassin.value
    ensures forall d :: d in ExpectedDeaths(c, trs, n) <==>
      || (Chosen(n.executedToday) && d == n.executedToday.value)
      || (Chosen(n.assassin) && d == n.assassin.value)
      || (Chosen(SurvivingKill(c, trs, n)) && d == SurvivingKill(c, trs, n).value)
  {
  }

  /**
   * The recorded kill is the raw kill exactly when neither the Bard nor the
   * Cleric blocks it; a block always removes it.
   */
  lemma BlockingMeaning(c: Cast, trs: seq<Trait>, n: NightChoices)
    ensures var kill := RawVillainKill(c, trs, n);
      SurvivingKill(c, trs, n) == kill <==> kill.None? || (!BardBlocks(kill, c, n) && !ClericBlocks(kill, c, n))
    ensures BardBlocks(RawVillainKill(c, trs, n), c, n) ==> SurvivingKill(c, trs, n).None?
    ensures ClericBlocks(RawVillainKill(c, trs, n), c, n) ==> SurvivingKill(c, trs, n).None?
  {
  }

  /**
   * Choosing "No drunk" stores a snapshot of the Bard's character as the drunk
   * pick. Only its player matters: even once the roster's Bard has changed
   * since, the Bard is drunk tonight and never blocks a kill.
   */
  lemma NoDrunkDisablesBardBlock(c: Cast, n: NightChoices, kill: Pick)
    requires c.bard.Some? && n.drunkFromBard.Some? && PlayerOf(n.drunkFromBard) == PlayerOf(c.bard)
    ensures IsTempDrunk(c.bard, n)
    ensures !BardBlocks(kill, c, n)
  {
  }

  /**
   * The last villain whose choice counts supplies the raw kill: the Vampire's
   * counted choice beats the Grim Reaper's, which beats the Mad Magician's, and
   * a villain the Hero stopped supplies nothing.
   */
  lemma RawKillPriority(c: Cast, trs: seq<Trait>, n: NightChoices)
    ensures KillCounts(n.vampire, c.vampire, c, trs, n) ==> RawVillainKill(c, trs, n) == n.vampire
    ensures !KillCounts(n.vampire, c.vampire, c, trs, n) && KillCounts(n.grimReaper, c.grimReaper, c, trs, n) ==>
      RawVillainKill(c, trs, n) == n.grimReaper
    ensures RawVillainKill(c, trs, n).Some? ==>
      RawVillainKill(c, trs, n) in [n.madMagician, n.grimReaper, n.vampire] && Chosen(RawVillainKill(c, trs, n))
    ensures (HeroStoppedVillain(c.madMagician, c, trs, n).Stopped? &&
             HeroStoppedVillain(c.grimReaper, c, trs, n).Stopped? &&
             HeroStoppedVillain(c.vampire, c, trs, n).Stopped?) ==>
        RawVillainKill(c, trs, n).None?
  {
  }

  /**
   * When the Hero stops the only villain who chose a target, no villain kill
   * is recorded: the deaths are only the executed and assassinated.
   */
  lemma HeroInterceptionSavesTarget(c: Cast, trs: seq<Trait>, n: NightChoices, villain: Option<Character>)
    requires villain in [c.madMagician, c.grimReaper, c.vampire]
    requires HeroStoppedVillain(villain, c, trs, n).Stopped?
    requires villain != c.madMagician ==> !Chosen(n.madMagician)
    requires villain != c.grimReaper ==> !Chosen(n.grimReaper)
    requires villain != c.vampire ==> !Chosen(n.vampire)
    ensures ExpectedDeaths(c, trs, n) == OneIfChosen(n.executedToday) + OneIfChosen(n.assassin)
  {
    assert RawVillainKill(c, trs, n).None?;
  }

  /** An execution today does not suppress the Grim Reaper's kill: the recorded kill ignores it. */
  lemma KillIgnoresExecution(c: Cast, trs: seq<Trait>, n: NightChoices, executed: Pick)
    ensures SurvivingKill(c, trs, n.(executedToday := executed)) == SurvivingKill(c, trs, n)
  {
    var m := n.(executedToday := executed);
    forall v: Option<Character> ensures HeroStoppedVillain(v, c, trs, m) == HeroStoppedVillain(v, c, trs, n) {
      assert m.hero == n.hero && m.drunkFromBard == n.drunkFromBard && m.poisoner == n.poisoner;
    }
    assert RawVillainKill(c, trs, m) == RawVillainKill(c, trs, n);
  }

  // ---------------------------------------------------------------------
  // Prompts

  /** What a villain's prompt adds: the Hero wait, the Hero's interception, or nothing. */
  datatype VillainNote = HeroWait | HeroStopped(heroPlayer: Option<string>) | NoNote

  datatype BedmakerResult = BedmakerWaits(reason: WaitReason) | BedmakerUnpicked | BedmakerCount(count: nat)

  /** Each prompt as a role-tagged variant with the names and values it shows. */
  datatype NightText =
    | PoisonerAsk
    | SpyAsk(spied: Option<Character>)
    | AssassinAsk(skipAs: Option<string>)
    | BardAsk(drunkOptions: Option<seq<Option<string>>>)
    | GravekeeperWait(gravekeeperWait: WaitReason)
    | GravekeeperLearns(executed: Character)
    | FortuneTellerAsk(fortuneTellerWait: Option<WaitReason>)
    | HeroAsk(heroWait: Option<WaitReason>)
    | ClericAsk(clericWait: Option<WaitReason>)
    | MadMagicianAsk(minionKilled: bool, minionPlayer: Option<string>, madMagicianNote: VillainNote)
    | GrimReaperAsk(executionToday: bool, grimReaperSkipAs: Option<string>, grimReaperNote: VillainNote)
    | VampireAsk(vampireNote: VillainNote)
    | DreamerWait(dreamerWait: WaitReason)
    | DreamerLearns(deadEvil: nat)
    | BedmakerAsk(result: BedmakerResult)

  datatype NightPrompt = NightPrompt(holder: Character, text: NightText)

  datatype DeathPanel = Waiting(reason: WaitReason) | Deaths(dead: seq<Character>)

  /** The screen: an early diagnostic when a villain has no minion, else the prompts and the death panel. */
  datatype NightScreen = RequiresMinion(villainRole: string) | Screen(prompts: seq<NightPrompt>, panel: DeathPanel)

  /** A villain prompt's line: the Hero wait if it applies, else the Hero's interception, if any. */
  function Note(villain: Option<Character>, c: Cast, trs: seq<Trait>, n: NightChoices): VillainNote {
    if Flags(c, n).hero then HeroWait
    else match HeroStoppedVillain(villain, c, trs, n)
      case Stopped(p) => HeroStopped(p)
      case NotStopped => NoNote
  }

  /** The Assassin "skipped" by choosing itself. */
  predicate AssassinSkipped(n: NightChoices) {
    RoleOf(n.assassin) == Some("Assassin")
  }

  /** The Grim Reaper "skipped" by choosing itself. */
  predicate GrimReaperSkipped(n: NightChoices) {
    RoleOf(n.grimReaper) == Some("Grim Reaper")
  }

  predicate SkippedHolder(ch: Character, n: NightChoices) {
    (ch.role == "Assassin" && AssassinSkipped(n)) || (ch.role == "Grim Reaper" && GrimReaperSkipped(n))
  }

  function Holder(p: NightPrompt): Character {
    p.holder
  }

  /** The first earlier prompt holder with this player, as `prompts.map(...).find(...)` returns it. */
  function FirstHolder(prompts: seq<NightPrompt>, player: Option<string>): Option<Character> {
    Find(Map(prompts, Holder), (h: Character) => h.player == player)
  }

  /**
   * `countAbility(player)`: 1 when the first earlier prompt held by `player`
   * belongs to someone who did not skip, else 0.
   */
  function CountAbility(prompts: seq<NightPrompt>, player: Option<string>, n: NightChoices): (r: nat)
    ensures r <= 1
  {
    var ch := FirstHolder(prompts, player);
    if ch.None? then 0
    else if ch.value.role == "Assassin" && AssassinSkipped(n) then 0
    else if ch.value.role == "Grim Reaper" && GrimReaperSkipped(n) then 0
    else 1
  }

  /** Position `k` holds the first earlier prompt whose holder has this player. */
  predicate FirstHeldAt(prompts: seq<NightPrompt>, player: Option<string>, k: int) {
    && 0 <= k < |prompts| && prompts[k].holder.player == player
    && forall j :: 0 <= j < k ==> prompts[j].holder.player != player
  }

  /**
   * A player counts exactly when some earlier prompt is held by that player
   * and the first such holder did not skip.
   */
  lemma CountAbilityMeaning(prompts: seq<NightPrompt>, player: Option<string>, n: NightChoices)
    ensures CountAbility(prompts, player, n) == 1 <==>
      exists k :: FirstHeldAt(prompts, player, k) && !SkippedHolder(prompts[k].holder, n)
  {
    var holders := Map(prompts, Holder);
    var p := (h: Character) => h.player == player;
    var i := FindIndex(holders, p);
    assert forall j :: 0 <= j < |prompts| ==> (p(holders[j]) <==> prompts[j].holder.player == player);
    if i == -1 {
      assert FirstHolder(prompts, player).None?;
      forall k | 0 <= k < |prompts| ensures !FirstHeldAt(prompts, player, k) {
        assert !p(holders[k]);
      }
    } else {
      assert FirstHolder(prompts, player) == Some(prompts[i].holder);
      assert FirstHeldAt(prompts, player, i);
      forall k | FirstHeldAt(prompts, player, k) ensures k == i {
        assert !(k < i) && !(i < k);
      }
    }
  }

  /** The Bedmaker's line: the first wait, nothing until both picks are set, then the count. */
  function BedmakerOutcome(before: seq<NightPrompt>, c: Cast, n: NightChoices): BedmakerResult {
    match FirstWait(Flags(c, n))
    case Some(w) => BedmakerWaits(w)
    case None =>
      if !Chosen(n.bedmaker.0) || !Chosen(n.bedmaker.1) then BedmakerUnpicked
      else BedmakerCount(CountAbility(before, PlayerOf(n.bedmaker.0), n) + CountAbility(before, PlayerOf(n.bedmaker.1), n))
  }

  /** The count is shown only once every wait clears and both picks are set, and it lies in 0..2. */
  lemma BedmakerCountBounds(before: seq<NightPrompt>, c: Cast, n: NightChoices)
    ensures BedmakerOutcome(before, c, n).BedmakerCount? <==>
      (forall w :: !Applies(Flags(c, n), w)) && Chosen(n.bedmaker.0) && Chosen(n.bedmaker.1)
    ensures BedmakerOutcome(before, c, n).BedmakerCount? ==> BedmakerOutcome(before, c, n).count <= 2
  {
    FirstWaitNone(Flags(c, n));
  }

  /** `c => c.killed && c.registersAsEvil(trs)` */
  function DeadEvil(trs: seq<Trait>): Character -> bool {
    (ch: Character) => ch.killed && ch.RegistersAsEvil(trs)
  }

  function DeadEvilCount(chs: seq<Character>, trs: seq<Trait>): nat {
    |Filter(chs, DeadEvil(trs))|
  }

  function DrunkOptions(n: NightChoices): seq<Option<string>> {
    Map(Filter([n.bard.0, n.bard.1], GoodPick), PlayerOf)
  }

  function PoisonerPrompts(c: Cast): seq<NightPrompt> {
    if Acts(c.poisoner) then [NightPrompt(c.poisoner.value, PoisonerAsk)] else []
  }

  function SpyPrompts(c: Cast, n: NightChoices): seq<NightPrompt> {
    if Acts(c.spy) then [NightPrompt(c.spy.value, SpyAsk(if Chosen(n.spy) then n.spy else None))] else []
  }

  function AssassinPrompts(c: Cast): seq<NightPrompt> {
    if Acts(c.assassin) then [NightPrompt(c.assassin.value, AssassinAsk(c.assassin.value.player))] else []
  }

  function BardPrompts(c: Cast, n: NightChoices): seq<NightPrompt> {
    if !Acts(c.bard) then []
    else
      var options := if !Chosen(n.bard.0) || !Chosen(n.bard.1) then None
        else Some(DrunkOptions(n) + [c.bard.value.player]);
      [NightPrompt(c.bard.value, BardAsk(options))]
  }

  function GravekeeperPrompts(c: Cast, n: NightChoices): seq<NightPrompt> {
    if !Acts(c.gravekeeper) || n.executedToday.None? then []
    else
      var text := match WaitForDrunks(Flags(c, n))
        case Some(w) => GravekeeperWait(w)
        case None => GravekeeperLearns(n.executedToday.value);
      [NightPrompt(c.gravekeeper.value, text)]
  }

  function FortuneTellerPrompts(c: Cast, n: NightChoices): seq<NightPrompt> {
    if Acts(c.fortuneTeller) then [NightPrompt(c.fortuneTeller.value, FortuneTellerAsk(WaitForDrunks(Flags(c, n))))] else []
  }

  function HeroPrompts(c: Cast, n: NightChoices): seq<NightPrompt> {
    if Acts(c.hero) then [NightPrompt(c.hero.value, HeroAsk(WaitForDrunks(Flags(c, n))))] else []
  }

  function ClericPrompts(c: Cast, n: NightChoices): seq<NightPrompt> {
    if Acts(c.cleric) then [NightPrompt(c.cleric.value, ClericAsk(WaitForDrunks(Flags(c, n))))] else []
  }

  /** The villain lacking a minion that stops the screen, checked in the order the screen meets them. */
  function NightBlocker(c: Cast): Option<string> {
    if c.madMagician.Some? && c.minion.None? then Some("Mad Magician")
    else if c.grimReaper.Some? && c.minion.None? then Some("Grim Reaper")
    else if c.vampire.Some? && c.minion.None? then Some("Vampire")
    else None
  }

  function MadMagicianPrompts(c: Cast, trs: seq<Trait>, n: NightChoices): seq<NightPrompt>
    requires NightBlocker(c).None?
  {
    if c.madMagician.None? then []
    else [NightPrompt(c.madMagician.value,
      MadMagicianAsk(c.minion.value.killed, c.minion.value.player, Note(c.madMagician, c, trs, n)))]
  }

  function GrimReaperPrompts(c: Cast, trs: seq<Trait>, n: NightChoices): seq<NightPrompt> {
    if c.grimReaper.None? then []
    else [NightPrompt(c.grimReaper.value,
      GrimReaperAsk(Chosen(n.executedToday), c.grimReaper.value.player, Note(c.grimReaper, c, trs, n)))]
  }

  function VampirePrompts(c: Cast, trs: seq<Trait>, n: NightChoices): seq<NightPrompt> {
    if c.vampire.None? then [] else [NightPrompt(c.vampire.value, VampireAsk(Note(c.vampire, c, trs, n)))]
  }

  function DreamerPrompts(chs: seq<Character>, trs: seq<Trait>, c: Cast, n: NightChoices): seq<NightPrompt> {
    if !Acts(c.dreamer) then []
    else
      var text := match WaitForDrunks(Flags(c, n))
        case Some(w) => DreamerWait(w)
        case None => DreamerLearns(DeadEvilCount(chs, trs));
      [NightPrompt(c.dreamer.value, text)]
  }

  function Killed(ch: Character): bool {
    ch.killed
  }

  /**
   * The living Dreamer is always prompted; the count is shown exactly when
   * it waits for neither the Bard nor the Poisoner.
   */
  lemma DreamerShownMeaning(chs: seq<Character>, trs: seq<Trait>, c: Cast, n: NightChoices)
    ensures DreamerPrompts(chs, trs, c, n) != [] <==> Acts(c.dreamer)
    ensures Acts(c.dreamer) && !Flags(c, n).bard && !Flags(c, n).poisoner ==>
      DreamerPrompts(chs, trs, c, n) == [NightPrompt(c.dreamer.value, DreamerLearns(DeadEvilCount(chs, trs)))]
    ensures Acts(c.dreamer) && (Flags(c, n).bard || Flags(c, n).poisoner) ==>
      |DreamerPrompts(chs, trs, c, n)| == 1 && DreamerPrompts(chs, trs, c, n)[0].text.DreamerWait?
  {
  }

  /**
   * The Dreamer's count is the number of roster positions whose character is
   * killed and registers as evil (evil, or sharing its player with the
   * Recluse trait), so it never exceeds the number of killed characters.
   */
  lemma DreamerCountMeaning(chs: seq<Character>, trs: seq<Trait>)
    ensures DeadEvilCount(chs, trs) ==
      |set k | 0 <= k < |chs| && chs[k].killed &&
        (chs[k].IsEvil() || exists i :: 0 <= i < |trs| && trs[i].role == "Recluse" && trs[i].player == chs[k].player)|
    ensures DeadEvilCount(chs, trs) <= |Filter(chs, Killed)|
  {
    FilterCountsPositions(chs, DeadEvil(trs));
    FilterCountsPositions(chs, Killed);
    var evilAt := Positions(chs, DeadEvil(trs));
    var killedAt := Positions(chs, Killed);
    var named := set k | 0 <= k < |chs| && chs[k].killed &&
      (chs[k].IsEvil() || exists i :: 0 <= i < |trs| && trs[i].role == "Recluse" && trs[i].player == chs[k].player);
    forall k | 0 <= k < |chs|
      ensures k in evilAt <==> k in named
    {
      RegistersAsEvilMeaning(chs[k], trs);
    }
    assert evilAt == named;
    assert evilAt <= killedAt;
    assert killedAt == evilAt + (killedAt - evilAt);
  }

  function BedmakerPrompts(before: seq<NightPrompt>, c: Cast, n: NightChoices): seq<NightPrompt> {
    if Acts(c.bedmaker) then [NightPrompt(c.bedmaker.value, BedmakerAsk(BedmakerOutcome(before, c, n)))] else []
  }

  /** The prompts pushed before the drunk wait is known, in the order the screen pushes them. */
  function ChoicePrompts(c: Cast, n: NightChoices): seq<NightPrompt> {
    PoisonerPrompts(c) + SpyPrompts(c, n) + AssassinPrompts(c) + BardPrompts(c, n)
  }

  /** The prompts pushed before any villain's. */
  function InformationPrompts(c: Cast, n: NightChoices): seq<NightPrompt> {
    ChoicePrompts(c, n) +
    GravekeeperPrompts(c, n) + FortuneTellerPrompts(c, n) + HeroPrompts(c, n) + ClericPrompts(c, n)
  }

  /** The villains' prompts, in the order the screen pushes them. */
  function VillainPrompts(c: Cast, trs: seq<Trait>, n: NightChoices): seq<NightPrompt>
    requires NightBlocker(c).None?
  {
    MadMagicianPrompts(c, trs, n) + GrimReaperPrompts(c, trs, n) + VampirePrompts(c, trs, n)
  }

  /** The prompts pushed before the Bedmaker's. */
  function PromptsBeforeBedmaker(chs: seq<Character>, trs: seq<Trait>, c: Cast, n: NightChoices): seq<NightPrompt>
    requires NightBlocker(c).None?
  {
    InformationPrompts(c, n) + VillainPrompts(c, trs, n) + DreamerPrompts(chs, trs, c, n)
  }

  function DeathPanelFor(c: Cast, trs: seq<Trait>, n: NightChoices): DeathPanel {
    match FirstWait(Flags(c, n))
    case Some(w) => Waiting(w)
    case None => Deaths(ExpectedDeaths(c, trs, n))
  }

  /** What the night screen shows for this roster, these traits and these choices. */
  function NightView(chs: seq<Character>, trs: seq<Trait>, n: NightChoices): NightScreen {
    NightViewWith(chs, trs, CastOf(chs), n)
  }

  /** The screen once the roles are looked up. */
  function NightViewWith(chs: seq<Character>, trs: seq<Trait>, c: Cast, n: NightChoices): NightScreen {
    match NightBlocker(c)
    case Some(role) => RequiresMinion(role)
    case None =>
      var before := PromptsBeforeBedmaker(chs, trs, c, n);
      Screen(before + BedmakerPrompts(before, c, n), DeathPanelFor(c, trs, n))
  }

  /**
   * A prompt is held by a roster member with a player, and a killed holder
   * only ever gets a villain's prompt.
   */
  predicate WellHeld(p: NightPrompt, chs: seq<Character>) {
    && p.holder in chs && Truthy(p.holder.player)
    && (p.holder.killed ==> p.text.MadMagicianAsk? || p.text.GrimReaperAsk? || p.text.VampireAsk?)
  }

  predicate AllWellHeld(ps: seq<NightPrompt>, chs: seq<Character>) {
    forall k :: 0 <= k < |ps| ==> WellHeld(ps[k], chs)
  }

  lemma AllWellHeldAppend(a: seq<NightPrompt>, b: seq<NightPrompt>, chs: seq<Character>)
    requires AllWellHeld(a, chs) && AllWellHeld(b, chs)
    ensures AllWellHeld(a + b, chs)
  {
    forall k | 0 <= k < |a + b| ensures WellHeld((a + b)[k], chs) {
      if k < |a| {
        assert (a + b)[k] == a[k];
      } else {
        assert (a + b)[k] == b[k - |a|];
      }
    }
  }

  lemma InformationWellHeld(chs: seq<Character>, c: Cast, n: NightChoices)
    requires CastInRoster(c, chs)
    ensures AllWellHeld(InformationPrompts(c, n), chs)
  {
    var choice := ChoicePrompts(c, n);
    AllWellHeldAppend(PoisonerPrompts(c), SpyPrompts(c, n), chs);
    AllWellHeldAppend(PoisonerPrompts(c) + SpyPrompts(c, n), AssassinPrompts(c), chs);
    AllWellHeldAppend(PoisonerPrompts(c) + SpyPrompts(c, n) + AssassinPrompts(c), BardPrompts(c, n), chs);
    AllWellHeldAppend(choice, GravekeeperPrompts(c, n), chs);
    AllWellHeldAppend(choice + GravekeeperPrompts(c, n), FortuneTellerPrompts(c, n), chs);
    AllWellHeldAppend(choice + GravekeeperPrompts(c, n) + FortuneTellerPrompts(c, n), HeroPrompts(c, n), chs);
    AllWellHeldAppend(choice + GravekeeperPrompts(c, n) + FortuneTellerPrompts(c, n) + HeroPrompts(c, n),
      ClericPrompts(c, n), chs);
  }

  lemma VillainWellHeld(chs: seq<Character>, trs: seq<Trait>, c: Cast, n: NightChoices)
    requires CastInRoster(c, chs) && NightBlocker(c).None?
    ensures AllWellHeld(VillainPrompts(c, trs, n), chs)
  {
    AllWellHeldAppend(MadMagicianPrompts(c, trs, n), GrimReaperPrompts(c, trs, n), chs);
    AllWellHeldAppend(MadMagicianPrompts(c, trs, n) + GrimReaperPrompts(c, trs, n), VampirePrompts(c, trs, n), chs);
  }

  /** For any cast drawn from the roster, every prompt is well held. */
  lemma PromptsWellHeldWith(chs: seq<Character>, trs: seq<Trait>, c: Cast, n: NightChoices)
    requires CastInRoster(c, chs)
    ensures NightViewWith(chs, trs, c, n).Screen? ==> AllWellHeld(NightViewWith(chs, trs, c, n).prompts, chs)
  {
    if NightBlocker(c).None? {
      var info := InformationPrompts(c, n);
      var villain := VillainPrompts(c, trs, n);
      InformationWellHeld(chs, c, n);
      VillainWellHeld(chs, trs, c, n);
      AllWellHeldAppend(info, villain, chs);
      AllWellHeldAppend(info + villain, DreamerPrompts(chs, trs, c, n), chs);
      var before := PromptsBeforeBedmaker(chs, trs, c, n);
      AllWellHeldAppend(before, BedmakerPrompts(before, c, n), chs);
    }
  }

  /**
   * Every prompt on the night screen is held by a roster member with a
   * player, and only the Mad Magician, Grim Reaper and Vampire are prompted
   * once killed.
   */
  lemma PromptsWellHeld(chs: seq<Character>, trs: seq<Trait>, n: NightChoices)
    ensures NightView(chs, trs, n).Screen? ==> AllWellHeld(NightView(chs, trs, n).prompts, chs)
  {
    CastMembers(chs);
    PromptsWellHeldWith(chs, trs, CastOf(chs), n);
  }

  /**
   * The screen is replaced by a diagnostic exactly when no minion has a
   * player while a Mad Magician, Grim Reaper or Vampire is in play; the
   * diagnostic names the first of them in that order.
   */
  lemma MissingMinionBlocksNight(chs: seq<Character>, trs: seq<Trait>, n: NightChoices)
    ensures var c := CastOf(chs);
      NightView(chs, trs, n).RequiresMinion? <==>
        c.minion.None? && (c.madMagician.Some? || c.grimReaper.Some? || c.vampire.Some?)
    ensures var c := CastOf(chs);
      NightView(chs, trs, n).RequiresMinion? && c.madMagician.Some? ==>
        NightView(chs, trs, n).villainRole == "Mad Magician"
  {
  }

  /**
   * The death list is shown exactly when no wait applies; otherwise the
   * highest-priority wait is shown in its place.
   */
  lemma DeathsShownOnlyWithoutWaits(c: Cast, trs: seq<Trait>, n: NightChoices)
    ensures DeathPanelFor(c, trs, n).Deaths? <==> forall w :: !Applies(Flags(c, n), w)
    ensures DeathPanelFor(c, trs, n).Deaths? ==> DeathPanelFor(c, trs, n).dead == ExpectedDeaths(c, trs, n)
    ensures DeathPanelFor(c, trs, n).Waiting? ==> Applies(Flags(c, n), DeathPanelFor(c, trs, n).reason)
  {
    FirstWaitNone(Flags(c, n));
    if DeathPanelFor(c, trs, n).Waiting? {
      FirstWaitIsHighestPriority(Flags(c, n), DeathPanelFor(c, trs, n).reason);
    }
  }

  /** The pushes for the Poisoner through the Bard. */
  method PushChoicePrompts(c: Cast, n: NightChoices) returns (prompts: seq<NightPrompt>)
    ensures prompts == ChoicePrompts(c, n)
  {
    prompts := [];
    var poisoner := c.poisoner;
    if poisoner.Some? && !poisoner.value.killed {
      prompts := prompts + [NightPrompt(poisoner.value, PoisonerAsk)];
    }
    ghost var expected := PoisonerPrompts(c);
    assert prompts == expected;
    var spy := c.spy;
    if spy.Some? && !spy.value.killed {
      prompts := prompts + [NightPrompt(spy.value, SpyAsk(if Chosen(n.spy) then n.spy else None))];
    }
    expected := expected + SpyPrompts(c, n);
    assert prompts == expected;
    var assassin := c.assassin;
    if assassin.Some? && !assassin.value.killed {
      prompts := prompts + [NightPrompt(assassin.value, AssassinAsk(assassin.value.player))];
    }
    expected := expected + AssassinPrompts(c);
    assert prompts == expected;
    var bard := c.bard;
    if bard.Some? && !bard.value.killed {
      var options := if !Chosen(n.bard.0) || !Chosen(n.bard.1) then None
        else Some(DrunkOptions(n) + [bard.value.player]);
      prompts := prompts + [NightPrompt(bard.value, BardAsk(options))];
    }
    expected := expected + BardPrompts(c, n);
    assert prompts == expected;
  }

  /** The pushes for the Gravekeeper through the Cleric, whose prompts show the drunk wait. */
  method PushInformedPrompts(c: Cast, n: NightChoices, choicePrompts: seq<NightPrompt>) returns (prompts: seq<NightPrompt>)
    ensures prompts == choicePrompts +
      GravekeeperPrompts(c, n) + FortuneTellerPrompts(c, n) + HeroPrompts(c, n) + ClericPrompts(c, n)
  {
    prompts := choicePrompts;
    ghost var expected := prompts;
    var waitForDrunks := WaitForDrunks(Flags(c, n));
    var gravekeeper := c.gravekeeper;
    if gravekeeper.Some? && n.executedToday.Some? && !gravekeeper.value.killed {
      var text := if waitForDrunks.Some? then GravekeeperWait(waitForDrunks.value)
        else GravekeeperLearns(n.executedToday.value);
      prompts := prompts + [NightPrompt(gravekeeper.value, text)];
    }
    expected := expected + GravekeeperPrompts(c, n);
    assert prompts == expected;
    var fortuneTeller := c.fortuneTeller;
    if fortuneTeller.Some? && !fortuneTeller.value.killed {
      prompts := prompts + [NightPrompt(fortuneTeller.value, FortuneTellerAsk(waitForDrunks))];
    }
    expected := expected + FortuneTellerPrompts(c, n);
    assert prompts == expected;
    var hero := c.hero;
    if hero.Some? && !hero.value.killed {
      prompts := prompts + [NightPrompt(hero.value, HeroAsk(waitForDrunks))];
    }
    expected := expected + HeroPrompts(c, n);
    assert prompts == expected;
    var cleric := c.cleric;
    if cleric.Some? && !cleric.value.killed {
      prompts := prompts + [NightPrompt(cleric.value, ClericAsk(waitForDrunks))];
    }
    expected := expected + ClericPrompts(c, n);
    assert prompts == expected;
  }

  /**
   * The Mad Magician, Grim Reaper and Vampire pushes, stopping at the first
   * villain that finds no minion.
   */
  method PushVillainPrompts(c: Cast, trs: seq<Trait>, n: NightChoices) returns (blocker: Option<string>, prompts: seq<NightPrompt>)
    ensures blocker == NightBlocker(c)
    ensures blocker.None? ==> prompts == VillainPrompts(c, trs, n)
  {
    prompts := [];
    var minion := c.minion;
    var madMagician := c.madMagician;
    if madMagician.Some? {
      if minion.None? {
        return Some("Mad Magician"), prompts;
      }
      var note := Note(madMagician, c, trs, n);
      prompts := prompts + [NightPrompt(madMagician.value, MadMagicianAsk(minion.value.killed, minion.value.player, note))];
    }
    var grimReaper := c.grimReaper;
    if grimReaper.Some? {
      if minion.None? {
        return Some("Grim Reaper"), prompts;
      }
      var note := Note(grimReaper, c, trs, n);
      prompts := prompts + [NightPrompt(grimReaper.value, GrimReaperAsk(Chosen(n.executedToday), grimReaper.value.player, note))];
    }
    var vampire := c.vampire;
    if vampire.Some? {
      if minion.None? {
        return Some("Vampire"), prompts;
      }
      prompts := prompts + [NightPrompt(vampire.value, VampireAsk(Note(vampire, c, trs, n)))];
    }
    blocker := None;
  }

  /**
   * The night screen as the component computes it: the roles looked up,
   * prompts pushed one role at a time, an early return when a villain has no
   * minion, then the death panel.
   */
  method ResolveNight(chs: seq<Character>, trs: seq<Trait>, n: NightChoices) returns (r: NightScreen)
    ensures r == NightView(chs, trs, n)
  {
    var c := CastOf(chs);
    r := ResolveNightWith(chs, trs, c, n);
  }

  method ResolveNightWith(chs: seq<Character>, trs: seq<Trait>, c: Cast, n: NightChoices) returns (r: NightScreen)
    ensures r == NightViewWith(chs, trs, c, n)
  {
    var prompts := PushChoicePrompts(c, n);
    prompts := PushInformedPrompts(c, n, prompts);
    var blocker, villain := PushVillainPrompts(c, trs, n);
    if blocker.Some? {
      return RequiresMinion(blocker.value);
    }
    prompts := prompts + villain;
    ghost var expected := prompts;
    var waitForDrunks := WaitForDrunks(Flags(c, n));
    var dreamer := c.dreamer;
    if dreamer.Some? && !dreamer.value.killed {
      var text := if waitForDrunks.Some? then DreamerWait(waitForDrunks.value)
        else DreamerLearns(DeadEvilCount(chs, trs));
      prompts := prompts + [NightPrompt(dreamer.value, text)];
    }
    expected := expected + DreamerPrompts(chs, trs, c, n);
    assert prompts == expected;
    var bedmaker := c.bedmaker;
    if bedmaker.Some? && !bedmaker.value.killed {
      prompts := prompts + [NightPrompt(bedmaker.value, BedmakerAsk(BedmakerOutcome(prompts, c, n)))];
    }
    var wait := FirstWait(Flags(c, n));
    if wait.Some? {
      r := Screen(prompts, Waiting(wait.value));
    } else {
      var dead := GetResultingDeaths(c, trs, n);
      r := Screen(prompts, Deaths(dead));
    }
  }
}
