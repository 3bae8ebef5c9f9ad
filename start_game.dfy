/**
 * The setup screen: refuses an inconsistent roster with a diagnostic, or
 * lists one prompt per role and trait in play, in a fixed order, pairing the
 * Minion with the Villain and resolving the Gossipmonger, Investigator,
 * Medicine Doctor, Grandparent and Fortune Teller choices.
 */
module StartGame {
  import opened Wrappers
  import opened ArrayOps
  import opened Characters
  import opened Shuffle

  /** The gamemaster's setup choices, as player names. */
  datatype SetupChoices = SetupChoices(
    gossipmonger: (Option<string>, Option<string>),
    investigator: Option<string>,
    medicineDoctor: (Option<string>, Option<string>),
    grandParent: Option<string>,
    townguard: (Option<string>, Option<string>),
    fortuneTeller: Option<string>)

  /** Every choice unset. */
  const NoSetupChoices: SetupChoices := SetupChoices((None, None), None, (None, None), None, (None, None), None)

  /** Why the screen shows a diagnostic instead of prompts. */
  datatype SetupDiagnostic =
    | MustShareThree
    | InvestigatorNeedsMinion
    | MadMagicianNeedsMinion
    | GrimReaperNeedsMinion
    | VampireCannotHaveMinion

  /**
   * The characters and traits the screen looks up: the first minion and the
   * first villain with a player, the first character with a player of each
   * role, and the first trait with a player of each trait role. The Bedmaker
   * is looked up under "Bed Maker" and the Fortune Teller under "Fortune
   * Teller".
   */
  datatype SetupCast = SetupCast(
    minion: Option<Character>,
    villain: Option<Character>,
    gravekeeper: Option<Character>,
    gossipmonger: Option<Character>,
    investigator: Option<Character>,
    bedmaker: Option<Character>,
    medicineDoctor: Option<Character>,
    hero: Option<Character>,
    grandParent: Option<Character>,
    oracle: Option<Character>,
    dreamer: Option<Character>,
    townguard: Option<Character>,
    fortuneTeller: Option<Character>,
    ravenkeeper: Option<Character>,
    saint: Option<Trait>,
    recluse: Option<Trait>,
    lucky: Option<Trait>,
    poisoner: Option<Character>,
    spy: Option<Character>,
    assassin: Option<Character>,
    madMagician: Option<Character>,
    grimReaper: Option<Character>,
    vampire: Option<Character>,
    cleric: Option<Character>,
    bard: Option<Character>,
    slayer: Option<Character>,
    mastermind: Option<Character>,
    evilTwin: Option<Character>)

  function SetupCastOf(chs: seq<Character>, trs: seq<Trait>): SetupCast {
    SetupCast(
      minion := FindKind(chs, Minion),
      villain := FindKind(chs, Villain),
      gravekeeper := FindRole(chs, "Gravekeeper"),
      gossipmonger := FindRole(chs, "Gossipmonger"),
      investigator := FindRole(chs, "Investigator"),
      bedmaker := FindRole(chs, "Bed Maker"),
      medicineDoctor := FindRole(chs, "Medicine Doctor"),
      hero := FindRole(chs, "Hero"),
      grandParent := FindRole(chs, "Grandparent"),
      oracle := FindRole(chs, "Oracle"),
      dreamer := FindRole(chs, "Dreamer"),
      townguard := FindRole(chs, "Townguard"),
      fortuneTeller := FindRole(chs, "Fortune Teller"),
      ravenkeeper := FindRole(chs, "Ravenkeeper"),
      saint := FindTrait(trs, "Saint"),
      recluse := FindTrait(trs, "Recluse"),
      lucky := FindTrait(trs, "Lucky"),
      poisoner := FindRole(chs, "Poisoner"),
      spy := FindRole(chs, "Spy"),
      assassin := FindRole(chs, "Assassin"),
      madMagician := FindRole(chs, "Mad Magician"),
      grimReaper := FindRole(chs, "Grim Reaper"),
      vampire := FindRole(chs, "Vampire"),
      cleric := FindRole(chs, "Cleric"),
      bard := FindRole(chs, "Bard"),
      slayer := FindRole(chs, "Slayer"),
      mastermind := FindRole(chs, "Mastermind"),
      evilTwin := FindRole(chs, "Evil Twin"))
  }

  /** Every looked-up character is in the roster, every looked-up trait in the traits, each with a player. */
  predicate SetupCastInRoster(c: SetupCast, chs: seq<Character>, trs: seq<Trait>) {
    && InRoster(c.minion, chs) && InRoster(c.villain, chs) && InRoster(c.gravekeeper, chs)
    && InRoster(c.gossipmonger, chs) && InRoster(c.investigator, chs) && InRoster(c.bedmaker, chs)
    && InRoster(c.medicineDoctor, chs) && InRoster(c.hero, chs) && InRoster(c.grandParent, chs)
    && InRoster(c.oracle, chs) && InRoster(c.dreamer, chs) && InRoster(c.townguard, chs)
    && InRoster(c.fortuneTeller, chs) && InRoster(c.ravenkeeper, chs)
    && InTraits(c.saint, trs) && InTraits(c.recluse, trs) && InTraits(c.lucky, trs)
    && InRoster(c.poisoner, chs) && InRoster(c.spy, chs) && InRoster(c.assassin, chs)
    && InRoster(c.madMagician, chs) && InRoster(c.grimReaper, chs) && InRoster(c.vampire, chs)
    && InRoster(c.cleric, chs) && InRoster(c.bard, chs) && InRoster(c.slayer, chs)
    && InRoster(c.mastermind, chs) && InRoster(c.evilTwin, chs)
  }

  /**
   * Every looked-up character or trait belongs to the roster or the traits
   * and has a player; the minion is a minion and the villain a villain.
   */
  lemma SetupCastMembers(chs: seq<Character>, trs: seq<Trait>)
    ensures SetupCastInRoster(SetupCastOf(chs, trs), chs, trs)
    ensures SetupCastOf(chs, trs).minion.Some? ==> SetupCastOf(chs, trs).minion.value.kind == Minion
    ensures SetupCastOf(chs, trs).villain.Some? ==> SetupCastOf(chs, trs).villain.value.kind == Villain
  {
  }

  // ---------------------------------------------------------------------
  // Shared roles and the diagnostics

  /** `!c.player && c.sharedWithVillainIfUnused` */
  predicate UnusedAndShared(c: Character) {
    !Truthy(c.player) && c.sharedWithVillainIfUnused
  }

  /** The unassigned characters flagged to be shared with the villain, in roster order. */
  function UnusedGood(chs: seq<Character>): seq<Character> {
    Filter(chs, UnusedAndShared)
  }

  function RoleName(c: Character): string {
    c.role
  }

  /** The roles offered to the villain as covers. */
  function SharedRoles(chs: seq<Character>): seq<string> {
    Map(UnusedGood(chs), RoleName)
  }

  /**
   * The shared roles are those of unassigned, shareable characters of the
   * roster, one per such character.
   */
  lemma SharedRolesMeaning(chs: seq<Character>)
    ensures |SharedRoles(chs)| == |UnusedGood(chs)|
    ensures forall k :: 0 <= k < |SharedRoles(chs)| ==>
      exists i :: 0 <= i < |chs| && UnusedAndShared(chs[i]) && chs[i].role == SharedRoles(chs)[k]
    ensures forall i :: 0 <= i < |chs| && UnusedAndShared(chs[i]) ==> chs[i].role in SharedRoles(chs)
  {
    var u := UnusedGood(chs);
    forall i | 0 <= i < |chs| && UnusedAndShared(chs[i]) ensures chs[i].role in SharedRoles(chs) {
      var k :| 0 <= k < |u| && u[k] == chs[i];
      assert SharedRoles(chs)[k] == chs[i].role;
    }
    forall k | 0 <= k < |SharedRoles(chs)|
      ensures exists i :: 0 <= i < |chs| && UnusedAndShared(chs[i]) && chs[i].role == SharedRoles(chs)[k]
    {
      assert u[k] in chs;
      var i :| 0 <= i < |chs| && chs[i] == u[k];
      assert UnusedAndShared(chs[i]);
    }
  }

  /** The first diagnostic the screen meets, in the order it checks them. */
  function SetupBlocker(c: SetupCast, unusedCount: nat): Option<SetupDiagnostic> {
    if unusedCount != 3 then Some(MustShareThree)
    else if c.investigator.Some? && c.minion.None? then Some(InvestigatorNeedsMinion)
    else VillainBlocker(c)
  }

  /** The villains' checks, met after every earlier prompt is pushed. */
  function VillainBlocker(c: SetupCast): Option<SetupDiagnostic> {
    if c.madMagician.Some? && c.minion.None? then Some(MadMagicianNeedsMinion)
    else if c.grimReaper.Some? && c.minion.None? then Some(GrimReaperNeedsMinion)
    else if c.vampire.Some? && c.minion.Some? then Some(VampireCannotHaveMinion)
    else None
  }

  /**
   * Prompts are shown exactly when three characters are shared, every
   * Investigator, Mad Magician and Grim Reaper has a minion beside it, and a
   * Vampire has none.
   */
  lemma SetupBlockerMeaning(c: SetupCast, unusedCount: nat)
    ensures SetupBlocker(c, unusedCount).None? <==>
      && unusedCount == 3
      && (c.investigator.Some? || c.madMagician.Some? || c.grimReaper.Some? ==> c.minion.Some?)
      && (c.vampire.Some? ==> c.minion.None?)
    ensures unusedCount != 3 ==> SetupBlocker(c, unusedCount) == Some(MustShareThree)
    ensures SetupBlocker(c, unusedCount) == Some(VampireCannotHaveMinion) ==>
      unusedCount == 3 && c.vampire.Some? && c.minion.Some?
  {
  }

  // ---------------------------------------------------------------------
  // The Gossipmonger

  datatype GossipVerdict = BothEvil | NeitherEvil | OneEvil

  /** `chs.find(c => c.player === p)?.registersAsEvil(trs)`, with a missing character not evil. */
  predicate PickRegistersAsEvil(chs: seq<Character>, trs: seq<Trait>, p: Option<string>) {
    var ch := CharacterOf(chs, p);
    ch.Some? && ch.value.RegistersAsEvil(trs)
  }

  /** The answer, once both picks are set. */
  function GossipResponse(chs: seq<Character>, trs: seq<Trait>, picks: (Option<string>, Option<string>)): Option<GossipVerdict> {
    if !Truthy(picks.0) || !Truthy(picks.1) then None
    else
      var evil0 := PickRegistersAsEvil(chs, trs, picks.0);
      var evil1 := PickRegistersAsEvil(chs, trs, picks.1);
      if evil0 && evil1 then Some(BothEvil)
      else if !evil0 && !evil1 then Some(NeitherEvil)
      else Some(OneEvil)
  }

  function EvilCount(v: GossipVerdict): nat {
    match v
    case NeitherEvil => 0
    case OneEvil => 1
    case BothEvil => 2
  }

  /**
   * The answer appears exactly when both picks are set, and it counts how
   * many of the two picked players register as evil (a Recluse trait counts).
   */
  lemma GossipCountsEvil(chs: seq<Character>, trs: seq<Trait>, picks: (Option<string>, Option<string>))
    ensures GossipResponse(chs, trs, picks).Some? <==> Truthy(picks.0) && Truthy(picks.1)
    ensures GossipResponse(chs, trs, picks).Some? ==>
      EvilCount(GossipResponse(chs, trs, picks).value) ==
        (if PickRegistersAsEvil(chs, trs, picks.0) then 1 else 0) +
        (if PickRegistersAsEvil(chs, trs, picks.1) then 1 else 0)
  {
  }

  // ---------------------------------------------------------------------
  // Shuffled pairs

  /** A two-element shuffle swaps the pair exactly when the random pick for index 1 is 0. */
  lemma ShuffledPair<T>(a: T, b: T, picks: seq<nat>)
    requires ValidPicks(picks, 2)
    ensures Shuffled([a, b], picks) == if picks[1] == 0 then [b, a] else [a, b]
    ensures multiset(Shuffled([a, b], picks)) == multiset([a, b])
  {
    ShuffledPermutes([a, b], picks);
  }

  /** `shuffleArray([a, b])` on a fresh two-cell array. */
  method ShufflePair(a: Option<Character>, b: Option<Character>, picks: seq<nat>) returns (r: seq<Option<Character>>)
    requires ValidPicks(picks, 2)
    ensures r == Shuffled([a, b], picks)
    ensures |r| == 2 && multiset(r) == multiset([a, b])
  {
    var arr := new Option<Character>[2];
    arr[0] := a;
    arr[1] := b;
    assert arr[..] == [a, b];
    ShuffleArray(arr, picks);
    r := arr[..];
    ShuffledPair(a, b, picks);
  }

  // ---------------------------------------------------------------------
  // Prompts

  /** Each prompt as a variant with the names and values it shows. */
  datatype SetupText =
    | Intro                                   // the fixed description of the holder's role or trait
    | GamemasterSelect                        // asks the gamemaster to make the missing choice
    | MinionPairing(villainPlayer: Option<string>, villainRole: string)
    | VillainPairing(minionPlayer: Option<string>, minionRole: string, sharedWithMinion: seq<string>)
    | VillainAlone(shared: seq<string>)
    | GossipmongerAsk(response: Option<GossipVerdict>)
    | InvestigatorLearns(registersAsMinion: seq<Option<Character>>, minionRole: string)
    | MedicineDoctorLearns(registersAsRole: seq<Option<Character>>, townsfolkRole: Option<string>)
    | GrandparentLearns(grandchild: string, grandchildRole: Option<string>)
    | MadMagicianIntro(successor: Option<string>)

  datatype SetupPrompt = SetupPrompt(holder: Entity, text: SetupText)

  datatype SetupScreen = Diagnostic(diagnostic: SetupDiagnostic) | Prompts(prompts: seq<SetupPrompt>)

  function IntroPrompt(x: Option<Character>): seq<SetupPrompt> {
    if x.Some? then [SetupPrompt(CharacterEntity(x.value), Intro)] else []
  }

  function TraitPrompt(t: Option<Trait>): seq<SetupPrompt> {
    if t.Some? then [SetupPrompt(TraitEntity(t.value), Intro)] else []
  }

  /** The Minion and the Villain learn each other; a lone Villain learns only the shared roles. */
  function TeamPrompts(c: SetupCast, shared: seq<string>): (r: seq<SetupPrompt>)
    ensures |r| <= 2
    ensures r == [] <==> c.villain.None?
  {
    if c.minion.Some? && c.villain.Some? then
      [SetupPrompt(CharacterEntity(c.minion.value), MinionPairing(c.villain.value.player, c.villain.value.role)),
       SetupPrompt(CharacterEntity(c.villain.value), VillainPairing(c.minion.value.player, c.minion.value.role, shared))]
    else if c.villain.Some? then
      [SetupPrompt(CharacterEntity(c.villain.value), VillainAlone(shared))]
    else []
  }

  function GossipPrompts(c: SetupCast, chs: seq<Character>, trs: seq<Trait>, ch: SetupChoices): seq<SetupPrompt> {
    if c.gossipmonger.Some? then
      [SetupPrompt(CharacterEntity(c.gossipmonger.value), GossipmongerAsk(GossipResponse(chs, trs, ch.gossipmonger)))]
    else []
  }

  function InvestigatorPrompts(c: SetupCast, chs: seq<Character>, ch: SetupChoices, picks: seq<nat>): seq<SetupPrompt>
    requires ValidPicks(picks, 2)
    requires c.investigator.Some? ==> c.minion.Some?
  {
    if c.investigator.None? then []
    else
      var registersAsMinion := Shuffled([c.minion, CharacterOf(chs, ch.investigator)], picks);
      [SetupPrompt(CharacterEntity(c.investigator.value),
        if Truthy(ch.investigator) then InvestigatorLearns(registersAsMinion, c.minion.value.role)
        else GamemasterSelect)]
  }

  function MedicineDoctorPrompts(c: SetupCast, chs: seq<Character>, ch: SetupChoices, picks: seq<nat>): seq<SetupPrompt>
    requires ValidPicks(picks, 2)
  {
    if c.medicineDoctor.None? then []
    else
      var target := ch.medicineDoctor.0;
      var registersAsRole := Shuffled([CharacterOf(chs, target), CharacterOf(chs, ch.medicineDoctor.1)], picks);
      var role := if CharacterOf(chs, target).Some? then Some(CharacterOf(chs, target).value.role) else None;
      [SetupPrompt(CharacterEntity(c.medicineDoctor.value),
        if Truthy(target) && Truthy(ch.medicineDoctor.1) then MedicineDoctorLearns(registersAsRole, role)
        else GamemasterSelect)]
  }

  function GrandparentPrompts(c: SetupCast, chs: seq<Character>, ch: SetupChoices): seq<SetupPrompt> {
    if c.grandParent.None? then []
    else
      var grandchild := CharacterOf(chs, ch.grandParent);
      [SetupPrompt(CharacterEntity(c.grandParent.value),
        if Truthy(ch.grandParent)
        then GrandparentLearns(ch.grandParent.value, if grandchild.Some? then Some(grandchild.value.role) else None)
        else GamemasterSelect)]
  }

  function FortuneTellerPrompts(c: SetupCast, ch: SetupChoices): seq<SetupPrompt> {
    if c.fortuneTeller.None? then []
    else [SetupPrompt(CharacterEntity(c.fortuneTeller.value), if Truthy(ch.fortuneTeller) then Intro else GamemasterSelect)]
  }

  function MadMagicianPrompts(c: SetupCast): seq<SetupPrompt>
    requires c.madMagician.Some? ==> c.minion.Some?
  {
    if c.madMagician.None? then []
    else [SetupPrompt(CharacterEntity(c.madMagician.value), MadMagicianIntro(c.minion.value.player))]
  }

  /** The opening prompts: the evil team, the Gravekeeper and the Gossipmonger. */
  function OpeningPrompts(c: SetupCast, chs: seq<Character>, trs: seq<Trait>, ch: SetupChoices): seq<SetupPrompt> {
    TeamPrompts(c, SharedRoles(chs)) + IntroPrompt(c.gravekeeper) + GossipPrompts(c, chs, trs, ch)
  }

  /** The townsfolk prompts from the Bedmaker to the Townguard, pushed after the Investigator's. */
  function TownPrompts(c: SetupCast, chs: seq<Character>, ch: SetupChoices, doctorPicks: seq<nat>): seq<SetupPrompt>
    requires ValidPicks(doctorPicks, 2)
  {
    IntroPrompt(c.bedmaker) + MedicineDoctorPrompts(c, chs, ch, doctorPicks) + IntroPrompt(c.hero) +
    GrandparentPrompts(c, chs, ch) + IntroPrompt(c.oracle) + IntroPrompt(c.dreamer) + IntroPrompt(c.townguard)
  }

  /** From the Fortune Teller through the traits to the Assassin. */
  function LatePrompts(c: SetupCast, ch: SetupChoices): seq<SetupPrompt> {
    FortuneTellerPrompts(c, ch) + IntroPrompt(c.ravenkeeper) +
    TraitPrompt(c.saint) + TraitPrompt(c.recluse) + TraitPrompt(c.lucky) +
    IntroPrompt(c.poisoner) + IntroPrompt(c.spy) + IntroPrompt(c.assassin)
  }

  function VillainPrompts(c: SetupCast): seq<SetupPrompt>
    requires c.madMagician.Some? ==> c.minion.Some?
  {
    MadMagicianPrompts(c) + IntroPrompt(c.grimReaper) + IntroPrompt(c.vampire)
  }

  function ClosingPrompts(c: SetupCast): seq<SetupPrompt> {
    IntroPrompt(c.cleric) + IntroPrompt(c.bard) + IntroPrompt(c.slayer) + IntroPrompt(c.mastermind) + IntroPrompt(c.evilTwin)
  }

  /** What the setup screen shows once the roles are looked up. */
  function SetupViewWith(
    chs: seq<Character>, trs: seq<Trait>, c: SetupCast, ch: SetupChoices,
    investigatorPicks: seq<nat>, doctorPicks: seq<nat>): SetupScreen
    requires ValidPicks(investigatorPicks, 2) && ValidPicks(doctorPicks, 2)
  {
    match SetupBlocker(c, |UnusedGood(chs)|)
    case Some(d) => Diagnostic(d)
    case None =>
      Prompts(OpeningPrompts(c, chs, trs, ch) + InvestigatorPrompts(c, chs, ch, investigatorPicks) +
        TownPrompts(c, chs, ch, doctorPicks) + LatePrompts(c, ch) + VillainPrompts(c) + ClosingPrompts(c))
  }

  /** What the setup screen shows for this roster, these traits, these choices and these random picks. */
  function SetupView(
    chs: seq<Character>, trs: seq<Trait>, ch: SetupChoices,
    investigatorPicks: seq<nat>, doctorPicks: seq<nat>): SetupScreen
    requires ValidPicks(investigatorPicks, 2) && ValidPicks(doctorPicks, 2)
  {
    SetupViewWith(chs, trs, SetupCastOf(chs, trs), ch, investigatorPicks, doctorPicks)
  }

  // ---------------------------------------------------------------------
  // Properties of the prompts

  /**
   * With a Minion and a Villain, the first two prompts pair them: each
   * learns the other's player and role, and the Villain also learns the
   * shared roles.
   */
  lemma MinionAndVillainLearnEachOther(c: SetupCast, chs: seq<Character>, trs: seq<Trait>, ch: SetupChoices)
    requires c.minion.Some? && c.villain.Some?
    ensures var ps := OpeningPrompts(c, chs, trs, ch);
      && |ps| >= 2
      && ps[0] == SetupPrompt(CharacterEntity(c.minion.value), MinionPairing(c.villain.value.player, c.villain.value.role))
      && ps[1] == SetupPrompt(CharacterEntity(c.villain.value),
           VillainPairing(c.minion.value.player, c.minion.value.role, SharedRoles(chs)))
  {
  }

  /**
   * A role's introduction is emitted exactly when some character with
   * exactly that role string has a player.
   */
  lemma IntroIffAssigned(chs: seq<Character>, role: string)
    ensures |IntroPrompt(FindRole(chs, role))| == 1 <==>
      exists i :: 0 <= i < |chs| && chs[i].role == role && Truthy(chs[i].player)
    ensures IntroPrompt(FindRole(chs, role)) == [] <==>
      forall i :: 0 <= i < |chs| && chs[i].role == role ==> !Truthy(chs[i].player)
  {
  }

  /** With no Villain in play, no prompt mentions the evil team. */
  lemma NoVillainNoTeamPrompt(c: SetupCast, shared: seq<string>)
    requires c.villain.None?
    ensures TeamPrompts(c, shared) == []
  {
  }

  /**
   * A lone Villain (no Minion in play) gets one team prompt: the shared
   * roles, and no partner.
   */
  lemma LoneVillainLearnsSharedRoles(c: SetupCast, chs: seq<Character>, trs: seq<Trait>, ch: SetupChoices)
    requires c.minion.None? && c.villain.Some?
    ensures TeamPrompts(c, SharedRoles(chs)) == [SetupPrompt(CharacterEntity(c.villain.value), VillainAlone(SharedRoles(chs)))]
    ensures var ps := OpeningPrompts(c, chs, trs, ch);
      && |ps| >= 1 && ps[0] == SetupPrompt(CharacterEntity(c.villain.value), VillainAlone(SharedRoles(chs)))
      && forall k :: 0 <= k < |ps| ==> !ps[k].text.MinionPairing? && !ps[k].text.VillainPairing?
  {
  }

  /**
   * The Investigator is prompted exactly when in play. Once the gamemaster
   * has picked, it learns two candidates in random order, the minion and the
   * character of the picked player; until then the gamemaster is asked to
   * pick.
   */
  lemma InvestigatorLearnsMinionAmongTwo(c: SetupCast, chs: seq<Character>, ch: SetupChoices, picks: seq<nat>)
    requires ValidPicks(picks, 2)
    requires c.investigator.Some? ==> c.minion.Some?
    ensures var ps := InvestigatorPrompts(c, chs, ch, picks);
      && (c.investigator.None? <==> ps == [])
      && (c.investigator.Some? && !Truthy(ch.investigator) ==>
            ps == [SetupPrompt(CharacterEntity(c.investigator.value), GamemasterSelect)])
      && (c.investigator.Some? && Truthy(ch.investigator) ==>
            && |ps| == 1 && ps[0].holder == CharacterEntity(c.investigator.value)
            && ps[0].text.InvestigatorLearns?
            && |ps[0].text.registersAsMinion| == 2
            && multiset(ps[0].text.registersAsMinion) == multiset([c.minion, CharacterOf(chs, ch.investigator)])
            && c.minion in ps[0].text.registersAsMinion
            && ps[0].text.minionRole == c.minion.value.role)
  {
    ShuffledPair(c.minion, CharacterOf(chs, ch.investigator), picks);
  }

  /**
   * The Medicine Doctor is prompted exactly when in play. Once both picks are
   * set, it learns the target's role and two candidates in random order, the
   * target's character and the other pick's; until then the gamemaster is
   * asked to pick.
   */
  lemma MedicineDoctorLearnsTargetAmongTwo(c: SetupCast, chs: seq<Character>, ch: SetupChoices, picks: seq<nat>)
    requires ValidPicks(picks, 2)
    ensures var ps := MedicineDoctorPrompts(c, chs, ch, picks);
      var target := CharacterOf(chs, ch.medicineDoctor.0);
      && (c.medicineDoctor.None? <==> ps == [])
      && (c.medicineDoctor.Some? && (!Truthy(ch.medicineDoctor.0) || !Truthy(ch.medicineDoctor.1)) ==>
            ps == [SetupPrompt(CharacterEntity(c.medicineDoctor.value), GamemasterSelect)])
      && (c.medicineDoctor.Some? && Truthy(ch.medicineDoctor.0) && Truthy(ch.medicineDoctor.1) ==>
            && |ps| == 1 && ps[0].holder == CharacterEntity(c.medicineDoctor.value)
            && ps[0].text.MedicineDoctorLearns?
            && multiset(ps[0].text.registersAsRole) == multiset([target, CharacterOf(chs, ch.medicineDoctor.1)])
            && target in ps[0].text.registersAsRole
            && (target.Some? ==> ps[0].text.townsfolkRole == Some(target.value.role))
            && (target.None? ==> ps[0].text.townsfolkRole == None))
  {
    ShuffledPair(CharacterOf(chs, ch.medicineDoctor.0), CharacterOf(chs, ch.medicineDoctor.1), picks);
  }

  /**
   * The Grandparent is prompted exactly when in play. While no grandchild is
   * picked the gamemaster is asked to pick; once picked, the Grandparent
   * learns the picked player and the role of the first character with that
   * player, or no role when no character has it.
   */
  lemma GrandparentLearnsGrandchild(c: SetupCast, chs: seq<Character>, ch: SetupChoices)
    ensures var ps := GrandparentPrompts(c, chs, ch);
      && (c.grandParent.None? <==> ps == [])
      && (c.grandParent.Some? && !Truthy(ch.grandParent) ==>
            ps == [SetupPrompt(CharacterEntity(c.grandParent.value), GamemasterSelect)])
      && (c.grandParent.Some? && Truthy(ch.grandParent) ==>
            && |ps| == 1 && ps[0].holder == CharacterEntity(c.grandParent.value)
            && ps[0].text.GrandparentLearns?
            && ps[0].text.grandchild == ch.grandParent.value
            && (ps[0].text.grandchildRole.Some? <==> exists i :: 0 <= i < |chs| && chs[i].player == ch.grandParent)
            && (ps[0].text.grandchildRole.Some? ==>
                  exists i :: 0 <= i < |chs| && chs[i].player == ch.grandParent
                    && ps[0].text.grandchildRole.value == chs[i].role
                    && forall k :: 0 <= k < i ==> chs[k].player != ch.grandParent))
  {
  }

  /**
   * The Fortune Teller is prompted exactly when in play: its introduction
   * once a red herring is picked, and until then a request to the gamemaster.
   */
  lemma FortuneTellerIntroOncePicked(c: SetupCast, ch: SetupChoices)
    ensures var ps := FortuneTellerPrompts(c, ch);
      && (c.fortuneTeller.None? <==> ps == [])
      && (c.fortuneTeller.Some? ==>
            && |ps| == 1 && ps[0].holder == CharacterEntity(c.fortuneTeller.value)
            && (ps[0].text == Intro <==> Truthy(ch.fortuneTeller))
            && (ps[0].text == GamemasterSelect <==> !Truthy(ch.fortuneTeller)))
  {
  }

  /** A prompt is held by a character of the roster or a trait of the traits, with a player. */
  predicate HeldInGame(p: SetupPrompt, chs: seq<Character>, trs: seq<Trait>) {
    match p.holder
    case CharacterEntity(x) => x in chs && Truthy(x.player)
    case TraitEntity(t) => t in trs && Truthy(t.player)
  }

  predicate AllHeldInGame(ps: seq<SetupPrompt>, chs: seq<Character>, trs: seq<Trait>) {
    forall k :: 0 <= k < |ps| ==> HeldInGame(ps[k], chs, trs)
  }

  lemma AllHeldInGameAppend(a: seq<SetupPrompt>, b: seq<SetupPrompt>, chs: seq<Character>, trs: seq<Trait>)
    requires AllHeldInGame(a, chs, trs) && AllHeldInGame(b, chs, trs)
    ensures AllHeldInGame(a + b, chs, trs)
  {
    forall k | 0 <= k < |a + b| ensures HeldInGame((a + b)[k], chs, trs) {
      if k < |a| {
        assert (a + b)[k] == a[k];
      } else {
        assert (a + b)[k] == b[k - |a|];
      }
    }
  }

  lemma IntroHeld(x: Option<Character>, chs: seq<Character>, trs: seq<Trait>)
    requires InRoster(x, chs)
    ensures AllHeldInGame(IntroPrompt(x), chs, trs)
  {
  }

  lemma TraitHeld(t: Option<Trait>, chs: seq<Character>, trs: seq<Trait>)
    requires InTraits(t, trs)
    ensures AllHeldInGame(TraitPrompt(t), chs, trs)
  {
  }

  lemma OpeningHeld(c: SetupCast, chs: seq<Character>, trs: seq<Trait>, ch: SetupChoices, investigatorPicks: seq<nat>)
    requires ValidPicks(investigatorPicks, 2)
    requires SetupCastInRoster(c, chs, trs) && (c.investigator.Some? ==> c.minion.Some?)
    ensures AllHeldInGame(OpeningPrompts(c, chs, trs, ch) + InvestigatorPrompts(c, chs, ch, investigatorPicks), chs, trs)
  {
    var team := TeamPrompts(c, SharedRoles(chs));
    IntroHeld(c.gravekeeper, chs, trs);
    AllHeldInGameAppend(team, IntroPrompt(c.gravekeeper), chs, trs);
    AllHeldInGameAppend(team + IntroPrompt(c.gravekeeper), GossipPrompts(c, chs, trs, ch), chs, trs);
    AllHeldInGameAppend(OpeningPrompts(c, chs, trs, ch), InvestigatorPrompts(c, chs, ch, investigatorPicks), chs, trs);
  }

  lemma TownHeld(c: SetupCast, chs: seq<Character>, trs: seq<Trait>, ch: SetupChoices, doctorPicks: seq<nat>)
    requires ValidPicks(doctorPicks, 2)
    requires SetupCastInRoster(c, chs, trs)
    ensures AllHeldInGame(TownPrompts(c, chs, ch, doctorPicks), chs, trs)
  {
    IntroHeld(c.bedmaker, chs, trs);
    var t1 := IntroPrompt(c.bedmaker) + MedicineDoctorPrompts(c, chs, ch, doctorPicks);
    AllHeldInGameAppend(IntroPrompt(c.bedmaker), MedicineDoctorPrompts(c, chs, ch, doctorPicks), chs, trs);
    IntroHeld(c.hero, chs, trs);
    AllHeldInGameAppend(t1, IntroPrompt(c.hero), chs, trs);
    var t2 := t1 + IntroPrompt(c.hero);
    AllHeldInGameAppend(t2, GrandparentPrompts(c, chs, ch), chs, trs);
    var t3 := t2 + GrandparentPrompts(c, chs, ch);
    IntroHeld(c.oracle, chs, trs);
    AllHeldInGameAppend(t3, IntroPrompt(c.oracle), chs, trs);
    var t4 := t3 + IntroPrompt(c.oracle);
    IntroHeld(c.dreamer, chs, trs);
    AllHeldInGameAppend(t4, IntroPrompt(c.dreamer), chs, trs);
    var t5 := t4 + IntroPrompt(c.dreamer);
    IntroHeld(c.townguard, chs, trs);
    AllHeldInGameAppend(t5, IntroPrompt(c.townguard), chs, trs);
  }

  lemma LateHeld(c: SetupCast, chs: seq<Character>, trs: seq<Trait>, ch: SetupChoices)
    requires SetupCastInRoster(c, chs, trs)
    ensures AllHeldInGame(LatePrompts(c, ch), chs, trs)
  {
    IntroHeld(c.ravenkeeper, chs, trs);
    var l1 := FortuneTellerPrompts(c, ch) + IntroPrompt(c.ravenkeeper);
    AllHeldInGameAppend(FortuneTellerPrompts(c, ch), IntroPrompt(c.ravenkeeper), chs, trs);
    TraitHeld(c.saint, chs, trs);
    AllHeldInGameAppend(l1, TraitPrompt(c.saint), chs, trs);
    var l2 := l1 + TraitPrompt(c.saint);
    TraitHeld(c.recluse, chs, trs);
    AllHeldInGameAppend(l2, TraitPrompt(c.recluse), chs, trs);
    var l3 := l2 + TraitPrompt(c.recluse);
    TraitHeld(c.lucky, chs, trs);
    AllHeldInGameAppend(l3, TraitPrompt(c.lucky), chs, trs);
    var l4 := l3 + TraitPrompt(c.lucky);
    IntroHeld(c.poisoner, chs, trs);
    AllHeldInGameAppend(l4, IntroPrompt(c.poisoner), chs, trs);
    var l5 := l4 + IntroPrompt(c.poisoner);
    IntroHeld(c.spy, chs, trs);
    AllHeldInGameAppend(l5, IntroPrompt(c.spy), chs, trs);
    var l6 := l5 + IntroPrompt(c.spy);
    IntroHeld(c.assassin, chs, trs);
    AllHeldInGameAppend(l6, IntroPrompt(c.assassin), chs, trs);
  }

  lemma EndingHeld(c: SetupCast, chs: seq<Character>, trs: seq<Trait>)
    requires SetupCastInRoster(c, chs, trs) && (c.madMagician.Some? ==> c.minion.Some?)
    ensures AllHeldInGame(VillainPrompts(c), chs, trs)
    ensures AllHeldInGame(ClosingPrompts(c), chs, trs)
  {
    IntroHeld(c.grimReaper, chs, trs);
    IntroHeld(c.vampire, chs, trs);
    AllHeldInGameAppend(MadMagicianPrompts(c), IntroPrompt(c.grimReaper), chs, trs);
    AllHeldInGameAppend(MadMagicianPrompts(c) + IntroPrompt(c.grimReaper), IntroPrompt(c.vampire), chs, trs);
    IntroHeld(c.cleric, chs, trs);
    IntroHeld(c.bard, chs, trs);
    IntroHeld(c.slayer, chs, trs);
    IntroHeld(c.mastermind, chs, trs);
    IntroHeld(c.evilTwin, chs, trs);
    var e1 := IntroPrompt(c.cleric) + IntroPrompt(c.bard);
    AllHeldInGameAppend(IntroPrompt(c.cleric), IntroPrompt(c.bard), chs, trs);
    AllHeldInGameAppend(e1, IntroPrompt(c.slayer), chs, trs);
    AllHeldInGameAppend(e1 + IntroPrompt(c.slayer), IntroPrompt(c.mastermind), chs, trs);
    AllHeldInGameAppend(e1 + IntroPrompt(c.slayer) + IntroPrompt(c.mastermind), IntroPrompt(c.evilTwin), chs, trs);
  }

  /** For a cast drawn from the roster and the traits, every prompt has a holder in the game. */
  lemma SetupPromptsHeldWith(
    chs: seq<Character>, trs: seq<Trait>, c: SetupCast, ch: SetupChoices,
    investigatorPicks: seq<nat>, doctorPicks: seq<nat>)
    requires ValidPicks(investigatorPicks, 2) && ValidPicks(doctorPicks, 2)
    requires SetupCastInRoster(c, chs, trs)
    ensures var v := SetupViewWith(chs, trs, c, ch, investigatorPicks, doctorPicks);
      v.Prompts? ==> AllHeldInGame(v.prompts, chs, trs)
  {
    if SetupBlocker(c, |UnusedGood(chs)|).None? {
      var a := OpeningPrompts(c, chs, trs, ch) + InvestigatorPrompts(c, chs, ch, investigatorPicks);
      OpeningHeld(c, chs, trs, ch, investigatorPicks);
      TownHeld(c, chs, trs, ch, doctorPicks);
      LateHeld(c, chs, trs, ch);
      EndingHeld(c, chs, trs);
      AllHeldInGameAppend(a, TownPrompts(c, chs, ch, doctorPicks), chs, trs);
      var b := a + TownPrompts(c, chs, ch, doctorPicks);
      AllHeldInGameAppend(b, LatePrompts(c, ch), chs, trs);
      AllHeldInGameAppend(b + LatePrompts(c, ch), VillainPrompts(c), chs, trs);
      AllHeldInGameAppend(b + LatePrompts(c, ch) + VillainPrompts(c), ClosingPrompts(c), chs, trs);
    }
  }

  /** Every prompt of the setup screen belongs to a character or trait in the game that has a player. */
  lemma SetupPromptsHeld(
    chs: seq<Character>, trs: seq<Trait>, ch: SetupChoices,
    investigatorPicks: seq<nat>, doctorPicks: seq<nat>)
    requires ValidPicks(investigatorPicks, 2) && ValidPicks(doctorPicks, 2)
    ensures var v := SetupView(chs, trs, ch, investigatorPicks, doctorPicks);
      v.Prompts? ==> AllHeldInGame(v.prompts, chs, trs)
  {
    SetupCastMembers(chs, trs);
    SetupPromptsHeldWith(chs, trs, SetupCastOf(chs, trs), ch, investigatorPicks, doctorPicks);
  }

  /** When prompts are shown, the villain is offered exactly three shared roles. */
  lemma ThreeSharedRolesWhenShown(
    chs: seq<Character>, trs: seq<Trait>, ch: SetupChoices,
    investigatorPicks: seq<nat>, doctorPicks: seq<nat>)
    requires ValidPicks(investigatorPicks, 2) && ValidPicks(doctorPicks, 2)
    ensures SetupView(chs, trs, ch, investigatorPicks, doctorPicks).Prompts? ==> |SharedRoles(chs)| == 3
    ensures |SharedRoles(chs)| != 3 ==> SetupView(chs, trs, ch, investigatorPicks, doctorPicks) == Diagnostic(MustShareThree)
  {
  }

  // ---------------------------------------------------------------------
  // The screen as the component computes it

  method PushOpeningPrompts(c: SetupCast, chs: seq<Character>, trs: seq<Trait>, ch: SetupChoices, unusedGood: seq<Character>)
    returns (prompts: seq<SetupPrompt>)
    requires unusedGood == UnusedGood(chs)
    ensures prompts == OpeningPrompts(c, chs, trs, ch)
  {
    prompts := [];
    var shared := Map(unusedGood, RoleName);
    if c.minion.Some? && c.villain.Some? {
      prompts := prompts + [SetupPrompt(CharacterEntity(c.minion.value), MinionPairing(c.villain.value.player, c.villain.value.role))];
      prompts := prompts + [SetupPrompt(CharacterEntity(c.villain.value),
        VillainPairing(c.minion.value.player, c.minion.value.role, shared))];
    } else if c.villain.Some? {
      prompts := prompts + [SetupPrompt(CharacterEntity(c.villain.value), VillainAlone(shared))];
    }
    ghost var expected := TeamPrompts(c, SharedRoles(chs));
    assert prompts == expected;
    if c.gravekeeper.Some? {
      prompts := prompts + [SetupPrompt(CharacterEntity(c.gravekeeper.value), Intro)];
    }
    expected := expected + IntroPrompt(c.gravekeeper);
    assert prompts == expected;
    if c.gossipmonger.Some? {
      var response: Option<GossipVerdict> := None;
      if Truthy(ch.gossipmonger.0) && Truthy(ch.gossipmonger.1) {
        var choice0IsEvil := PickRegistersAsEvil(chs, trs, ch.gossipmonger.0);
        var choice1IsEvil := PickRegistersAsEvil(chs, trs, ch.gossipmonger.1);
        if choice0IsEvil && choice1IsEvil {
          response := Some(BothEvil);
        } else if !choice0IsEvil && !choice1IsEvil {
          response := Some(NeitherEvil);
        } else {
          response := Some(OneEvil);
        }
      }
      prompts := prompts + [SetupPrompt(CharacterEntity(c.gossipmonger.value), GossipmongerAsk(response))];
    }
  }

  /** The Medicine Doctor's prompt: the two picks shuffled, the first pick's role shown. */
  method ComputeMedicineDoctorPrompt(c: SetupCast, chs: seq<Character>, ch: SetupChoices, doctorPicks: seq<nat>)
    returns (prompts: seq<SetupPrompt>)
    requires ValidPicks(doctorPicks, 2)
    ensures prompts == MedicineDoctorPrompts(c, chs, ch, doctorPicks)
  {
    prompts := [];
    if c.medicineDoctor.Some? {
      var registersAsRole := ShufflePair(CharacterOf(chs, ch.medicineDoctor.0), CharacterOf(chs, ch.medicineDoctor.1), doctorPicks);
      var target := CharacterOf(chs, ch.medicineDoctor.0);
      var text := if Truthy(ch.medicineDoctor.0) && Truthy(ch.medicineDoctor.1)
        then MedicineDoctorLearns(registersAsRole, if target.Some? then Some(target.value.role) else None)
        else GamemasterSelect;
      prompts := [SetupPrompt(CharacterEntity(c.medicineDoctor.value), text)];
    }
  }

  /** The Grandparent's prompt: the grandchild's player and role. */
  method ComputeGrandparentPrompt(c: SetupCast, chs: seq<Character>, ch: SetupChoices) returns (prompts: seq<SetupPrompt>)
    ensures prompts == GrandparentPrompts(c, chs, ch)
  {
    prompts := [];
    if c.grandParent.Some? {
      var grandchild := CharacterOf(chs, ch.grandParent);
      var text := if Truthy(ch.grandParent)
        then GrandparentLearns(ch.grandParent.value, if grandchild.Some? then Some(grandchild.value.role) else None)
        else GamemasterSelect;
      prompts := [SetupPrompt(CharacterEntity(c.grandParent.value), text)];
    }
  }

  method PushTownPrompts(c: SetupCast, chs: seq<Character>, ch: SetupChoices, doctorPicks: seq<nat>)
    returns (prompts: seq<SetupPrompt>)
    requires ValidPicks(doctorPicks, 2)
    ensures prompts == TownPrompts(c, chs, ch, doctorPicks)
  {
    prompts := [];
    if c.bedmaker.Some? {
      prompts := prompts + [SetupPrompt(CharacterEntity(c.bedmaker.value), Intro)];
    }
    ghost var expected := IntroPrompt(c.bedmaker);
    assert prompts == expected;
    var doctor := ComputeMedicineDoctorPrompt(c, chs, ch, doctorPicks);
    prompts := prompts + doctor;
    expected := expected + MedicineDoctorPrompts(c, chs, ch, doctorPicks);
    assert prompts == expected;
    if c.hero.Some? {
      prompts := prompts + [SetupPrompt(CharacterEntity(c.hero.value), Intro)];
    }
    expected := expected + IntroPrompt(c.hero);
    assert prompts == expected;
    var grandparent := ComputeGrandparentPrompt(c, chs, ch);
    prompts := prompts + grandparent;
    expected := expected + GrandparentPrompts(c, chs, ch);
    assert prompts == expected;
    if c.oracle.Some? {
      prompts := prompts + [SetupPrompt(CharacterEntity(c.oracle.value), Intro)];
    }
    expected := expected + IntroPrompt(c.oracle);
    assert prompts == expected;
    if c.dreamer.Some? {
      prompts := prompts + [SetupPrompt(CharacterEntity(c.dreamer.value), Intro)];
    }
    expected := expected + IntroPrompt(c.dreamer);
    assert prompts == expected;
    if c.townguard.Some? {
      prompts := prompts + [SetupPrompt(CharacterEntity(c.townguard.value), Intro)];
    }
    expected := expected + IntroPrompt(c.townguard);
    assert prompts == expected;
  }

  method PushLatePrompts(c: SetupCast, ch: SetupChoices) returns (prompts: seq<SetupPrompt>)
    ensures prompts == LatePrompts(c, ch)
  {
    prompts := [];
    if c.fortuneTeller.Some? {
      prompts := prompts + [SetupPrompt(CharacterEntity(c.fortuneTeller.value), if Truthy(ch.fortuneTeller) then Intro else GamemasterSelect)];
    }
    ghost var expected := FortuneTellerPrompts(c, ch);
    assert prompts == expected;
    if c.ravenkeeper.Some? {
      prompts := prompts + [SetupPrompt(CharacterEntity(c.ravenkeeper.value), Intro)];
    }
    expected := expected + IntroPrompt(c.ravenkeeper);
    assert prompts == expected;
    if c.saint.Some? {
      prompts := prompts + [SetupPrompt(TraitEntity(c.saint.value), Intro)];
    }
    expected := expected + TraitPrompt(c.saint);
    assert prompts == expected;
    if c.recluse.Some? {
      prompts := prompts + [SetupPrompt(TraitEntity(c.recluse.value), Intro)];
    }
    expected := expected + TraitPrompt(c.recluse);
    assert prompts == expected;
    if c.lucky.Some? {
      prompts := prompts + [SetupPrompt(TraitEntity(c.lucky.value), Intro)];
    }
    expected := expected + TraitPrompt(c.lucky);
    assert prompts == expected;
    if c.poisoner.Some? {
      prompts := prompts + [SetupPrompt(CharacterEntity(c.poisoner.value), Intro)];
    }
    expected := expected + IntroPrompt(c.poisoner);
    assert prompts == expected;
    if c.spy.Some? {
      prompts := prompts + [SetupPrompt(CharacterEntity(c.spy.value), Intro)];
    }
    expected := expected + IntroPrompt(c.spy);
    assert prompts == expected;
    if c.assassin.Some? {
      prompts := prompts + [SetupPrompt(CharacterEntity(c.assassin.value), Intro)];
    }
    expected := expected + IntroPrompt(c.assassin);
    assert prompts == expected;
  }

  method PushClosingPrompts(c: SetupCast) returns (prompts: seq<SetupPrompt>)
    ensures prompts == ClosingPrompts(c)
  {
    prompts := [];
    if c.cleric.Some? {
      prompts := prompts + [SetupPrompt(CharacterEntity(c.cleric.value), Intro)];
    }
    ghost var expected := IntroPrompt(c.cleric);
    assert prompts == expected;
    if c.bard.Some? {
      prompts := prompts + [SetupPrompt(CharacterEntity(c.bard.value), Intro)];
    }
    expected := expected + IntroPrompt(c.bard);
    assert prompts == expected;
    if c.slayer.Some? {
      prompts := prompts + [SetupPrompt(CharacterEntity(c.slayer.value), Intro)];
    }
    expected := expected + IntroPrompt(c.slayer);
    assert prompts == expected;
    if c.mastermind.Some? {
      prompts := prompts + [SetupPrompt(CharacterEntity(c.mastermind.value), Intro)];
    }
    expected := expected + IntroPrompt(c.mastermind);
    assert prompts == expected;
    if c.evilTwin.Some? {
      prompts := prompts + [SetupPrompt(CharacterEntity(c.evilTwin.value), Intro)];
    }
    expected := expected + IntroPrompt(c.evilTwin);
    assert prompts == expected;
  }

  /**
   * The Mad Magician, Grim Reaper and Vampire pushes, stopping at the first
   * whose minion requirement fails.
   */
  method PushVillainPrompts(c: SetupCast) returns (blocker: Option<SetupDiagnostic>, prompts: seq<SetupPrompt>)
    ensures blocker == VillainBlocker(c)
    ensures blocker.None? ==> (c.madMagician.Some? ==> c.minion.Some?) && prompts == VillainPrompts(c)
  {
    prompts := [];
    if c.madMagician.Some? {
      if c.minion.None? {
        return Some(MadMagicianNeedsMinion), prompts;
      }
      prompts := prompts + [SetupPrompt(CharacterEntity(c.madMagician.value), MadMagicianIntro(c.minion.value.player))];
    }
    if c.grimReaper.Some? {
      if c.minion.None? {
        return Some(GrimReaperNeedsMinion), prompts;
      }
      prompts := prompts + [SetupPrompt(CharacterEntity(c.grimReaper.value), Intro)];
    }
    if c.vampire.Some? {
      if c.minion.Some? {
        return Some(VampireCannotHaveMinion), prompts;
      }
      prompts := prompts + [SetupPrompt(CharacterEntity(c.vampire.value), Intro)];
    }
    blocker := None;
  }

  /**
   * The setup screen as the component computes it: the roles looked up, the
   * shared-roles check, then prompts pushed in order, with an early return at
   * each role whose minion requirement fails.
   */
  method ResolveSetup(
    chs: seq<Character>, trs: seq<Trait>, ch: SetupChoices,
    investigatorPicks: seq<nat>, doctorPicks: seq<nat>) returns (r: SetupScreen)
    requires ValidPicks(investigatorPicks, 2) && ValidPicks(doctorPicks, 2)
    ensures r == SetupView(chs, trs, ch, investigatorPicks, doctorPicks)
  {
    var c := SetupCastOf(chs, trs);
    var unusedGood := Filter(chs, UnusedAndShared);
    r := ResolveSetupWith(chs, trs, c, ch, investigatorPicks, doctorPicks, unusedGood);
  }

  method ResolveSetupWith(
    chs: seq<Character>, trs: seq<Trait>, c: SetupCast, ch: SetupChoices,
    investigatorPicks: seq<nat>, doctorPicks: seq<nat>, unusedGood: seq<Character>) returns (r: SetupScreen)
    requires ValidPicks(investigatorPicks, 2) && ValidPicks(doctorPicks, 2)
    requires unusedGood == UnusedGood(chs)
    ensures r == SetupViewWith(chs, trs, c, ch, investigatorPicks, doctorPicks)
  {
    if |unusedGood| != 3 {
      return Diagnostic(MustShareThree);
    }
    var prompts := PushOpeningPrompts(c, chs, trs, ch, unusedGood);
    if c.investigator.Some? {
      if c.minion.None? {
        return Diagnostic(InvestigatorNeedsMinion);
      }
      var registersAsMinion := ShufflePair(c.minion, CharacterOf(chs, ch.investigator), investigatorPicks);
      var text := if Truthy(ch.investigator) then InvestigatorLearns(registersAsMinion, c.minion.value.role)
        else GamemasterSelect;
      prompts := prompts + [SetupPrompt(CharacterEntity(c.investigator.value), text)];
    }
    assert prompts == OpeningPrompts(c, chs, trs, ch) + InvestigatorPrompts(c, chs, ch, investigatorPicks);
    var town := PushTownPrompts(c, chs, ch, doctorPicks);
    prompts := prompts + town;
    var late := PushLatePrompts(c, ch);
    prompts := prompts + late;
    var blocker, villain := PushVillainPrompts(c);
    if blocker.Some? {
      return Diagnostic(blocker.value);
    }
    prompts := prompts + villain;
    var closing := PushClosingPrompts(c);
    prompts := prompts + closing;
    r := Prompts(prompts);
  }
}
