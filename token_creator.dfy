/**
 * The character-creation form: the rules it derives from the level and the
 * ability scores, the update of one score, and the request record it sends
 * to `create_character`. The form's numbers are JavaScript numbers; the
 * model takes them as integers. The level and score inputs can hold 0 (a
 * cleared field), fractions or values past 1-20 while they are edited; only
 * what the form submits is limited to whole numbers from 1 to 20.
 */
module TokenCreator {
  import opened RustInt

  datatype Stats = Stats(
    strength: int,
    dexterity: int,
    constitution: int,
    intelligence: int,
    wisdom: int,
    charisma: int)

  /** The keys of `Stats`, which the form's score inputs are bound to. */
  datatype StatName = Strength | Dexterity | Constitution | Intelligence | Wisdom | Charisma

  function Get(s: Stats, n: StatName): int {
    match n
    case Strength => s.strength
    case Dexterity => s.dexterity
    case Constitution => s.constitution
    case Intelligence => s.intelligence
    case Wisdom => s.wisdom
    case Charisma => s.charisma
  }

  /** The scores the form starts with. */
  function DefaultStats(): (r: Stats)
    ensures forall n :: Get(r, n) == 10
  {
    Stats(10, 10, 10, 10, 10, 10)
  }

  /** `Math.ceil(level / 4)` on an integer level. */
  function CeilQuarter(level: int): (r: int)
    ensures 4 * r - 4 < level <= 4 * r
  {
    -((-level) / 4)
  }

  /** `calculateProficiencyBonus`: one more than the number of started four-level tiers. */
  function ProficiencyBonus(level: int): (r: int)
    ensures 4 * (r - 2) < level <= 4 * (r - 1)
  {
    CeilQuarter(level) + 1
  }

  /** Levels 1-4 give +2, 5-8 +3, 9-12 +4, 13-16 +5 and 17-20 +6. */
  lemma ProficiencyBonusTable(level: int)
    ensures 1 <= level <= 4 ==> ProficiencyBonus(level) == 2
    ensures 5 <= level <= 8 ==> ProficiencyBonus(level) == 3
    ensures 9 <= level <= 12 ==> ProficiencyBonus(level) == 4
    ensures 13 <= level <= 16 ==> ProficiencyBonus(level) == 5
    ensures 17 <= level <= 20 ==> ProficiencyBonus(level) == 6
  {
  }

  /** The bonus never falls as the level rises, and rises by at most one per level. */
  lemma ProficiencyBonusSteps(l1: int, l2: int)
    requires l1 <= l2
    ensures ProficiencyBonus(l1) <= ProficiencyBonus(l2)
    ensures l2 == l1 + 1 ==> ProficiencyBonus(l2) - ProficiencyBonus(l1) <= 1
  {
  }

  /** `calculateModifier`: half the score's distance from 10, rounded down. */
  function CalculateModifier(score: int): (r: int)
    ensures 2 * r <= score - 10 < 2 * r + 2
  {
    (score - 10) / 2
  }

  /** 10 and 11 give 0 and 9 gives -1, where the Rust helper gives 0. */
  lemma CalculateModifierExamples()
    ensures CalculateModifier(10) == 0 && CalculateModifier(11) == 0
    ensures CalculateModifier(9) == -1 && CalculateModifier(8) == -1
    ensures CalculateModifier(20) == 5 && CalculateModifier(1) == -5
    ensures TruncDiv(9 - 10, 2) == 0
  {
  }

  /**
   * The form's modifier and the Rust one agree for scores of 10 and more, and
   * differ by exactly one for odd scores below 10.
   */
  lemma CalculateModifierVersusRust(score: int)
    ensures score >= 10 ==> CalculateModifier(score) == TruncDiv(score - 10, 2)
    ensures score < 10 && score % 2 == 1 ==> CalculateModifier(score) == TruncDiv(score - 10, 2) - 1
    ensures score < 10 && score % 2 == 0 ==> CalculateModifier(score) == TruncDiv(score - 10, 2)
  {
    TruncDiv2VersusFloor(score - 10);
  }

  /** `handleStatChange`: the scores with `stat` set to `value`. */
  function StatChange(prev: Stats, stat: StatName, value: int): (r: Stats)
    ensures Get(r, stat) == value
    ensures forall n :: n != stat ==> Get(r, n) == Get(prev, n)
  {
    match stat
    case Strength => prev.(strength := value)
    case Dexterity => prev.(dexterity := value)
    case Constitution => prev.(constitution := value)
    case Intelligence => prev.(intelligence := value)
    case Wisdom => prev.(wisdom := value)
    case Charisma => prev.(charisma := value)
  }

  /** Setting a score to what it already is changes nothing; setting it twice keeps the last value. */
  lemma StatChangeLaws(prev: Stats, stat: StatName, v: int, w: int)
    ensures StatChange(prev, stat, Get(prev, stat)) == prev
    ensures StatChange(StatChange(prev, stat, v), stat, w) == StatChange(prev, stat, w)
  {
  }

  /** The request record the form sends to `create_character`. */
  datatype CharacterRequest = CharacterRequest(
    campaignId: string,
    playerName: string,
    name: string,
    level: int,
    race: string,
    characterClass: string,
    stats: Stats,
    background: string,
    proficiencyBonus: int,
    isNpc: bool,
    hitPoints: int,
    armorClass: int,
    speed: int,
    initiative: int)

  /** The record built on submit from the form's fields. */
  function CharacterData(campaignId: string, name: string, level: int, race: string,
                         charClass: string, stats: Stats): (r: CharacterRequest)
    ensures r.name == r.playerName == name && r.campaignId == campaignId
    ensures r.level == level && r.race == race && r.characterClass == charClass && r.stats == stats
    ensures r.background == "Folk Hero" && !r.isNpc && r.speed == 30
    ensures r.proficiencyBonus == ProficiencyBonus(level)
    ensures r.hitPoints == 8 + CalculateModifier(stats.constitution)
    ensures r.initiative == CalculateModifier(stats.dexterity)
    ensures r.armorClass == 10 + r.initiative
  {
    var proficiencyBonus := ProficiencyBonus(level);
    var constitutionModifier := CalculateModifier(stats.constitution);
    var dexterityModifier := CalculateModifier(stats.dexterity);
    CharacterRequest(
      campaignId, name, name, level, race, charClass, stats, "Folk Hero", proficiencyBonus, false,
      8 + constitutionModifier, 10 + dexterityModifier, 30, dexterityModifier)
  }

  /**
   * Within the form's input ranges (level and scores 1 to 20) the derived
   * numbers stay within the rules' ranges: bonus +2 to +6, hit points 3 to 13,
   * armour class 5 to 15.
   */
  lemma CharacterDataBounds(campaignId: string, name: string, level: int, race: string,
                            charClass: string, stats: Stats)
    requires 1 <= level <= 20
    requires forall n :: 1 <= Get(stats, n) <= 20
    ensures var r := CharacterData(campaignId, name, level, race, charClass, stats);
      && 2 <= r.proficiencyBonus <= 6
      && 3 <= r.hitPoints <= 13
      && 5 <= r.armorClass <= 15
      && -5 <= r.initiative <= 5
  {
    assert 1 <= Get(stats, Constitution) <= 20;
    assert 1 <= Get(stats, Dexterity) <= 20;
  }

  /** With the default scores every derived modifier is zero: 8 hit points, armour class 10. */
  lemma DefaultCharacterData(campaignId: string, name: string, level: int, race: string, charClass: string)
    ensures var r := CharacterData(campaignId, name, level, race, charClass, DefaultStats());
      r.hitPoints == 8 && r.armorClass == 10 && r.initiative == 0
  {
  }
}
