/**
 * Tavern's domain model: the records the entity store keeps, the enums
 * serialised by their serde rename tags, the `Default` values, and the rules
 * arithmetic on ability scores, coins and token footprints.
 *
 * Integer fields are unbounded `int`; where the arithmetic can leave the
 * 32-bit range, the lemmas below state the input bounds under which it does
 * not. `f32` fields are `real`, timestamps are `int` instants, and blocks the
 * store keeps as JSON text are ordinary values.
 */
module Models {
  import opened Wrappers
  import opened RustInt

  type U8 = x: int | 0 <= x < 0x100

  // ---------------------------------------------------------------------------
  // Enumerations and their serde tags
  // ---------------------------------------------------------------------------

  /** The rule system a campaign is played with. */
  datatype GameSystem = DnD5e | Pathfinder2e | Generic
  {
    /** The string serde writes for this variant. */
    function Tag(): string {
      match this
      case DnD5e => "dnd5e"
      case Pathfinder2e => "pathfinder2e"
      case Generic => "generic"
    }

    /** The variant serde reads from `s`, if `s` is one of the tags. */
    static function FromTag(s: string): (r: Option<GameSystem>)
      ensures r.Some? ==> r.value.Tag() == s
      ensures r.None? ==> forall v: GameSystem :: v.Tag() != s
    {
      if s == "dnd5e" then Some(GameSystem.DnD5e)
      else if s == "pathfinder2e" then Some(GameSystem.Pathfinder2e)
      else if s == "generic" then Some(GameSystem.Generic)
      else Option.None
    }

    /** Decoding the tag of a variant gives that variant back, so no two variants share a tag. */
    lemma TagRoundTrip()
      ensures FromTag(Tag()) == Some(this)
    {
    }

    /** The variant `Default::default` produces. */
    static function Default(): (r: GameSystem)
      ensures r.Tag() == "dnd5e"
    {
      GameSystem.DnD5e
    }
  }

  /** How advantage on dice rolls is applied. */
  datatype AdvantageMode = Manual | Automatic | Ask
  {
    /** The string serde writes for this variant. */
    function Tag(): string {
      match this
      case Manual => "manual"
      case Automatic => "automatic"
      case Ask => "ask"
    }

    /** The variant serde reads from `s`, if `s` is one of the tags. */
    static function FromTag(s: string): (r: Option<AdvantageMode>)
      ensures r.Some? ==> r.value.Tag() == s
      ensures r.None? ==> forall v: AdvantageMode :: v.Tag() != s
    {
      if s == "manual" then Some(AdvantageMode.Manual)
      else if s == "automatic" then Some(AdvantageMode.Automatic)
      else if s == "ask" then Some(AdvantageMode.Ask)
      else Option.None
    }

    /** Decoding the tag of a variant gives that variant back, so no two variants share a tag. */
    lemma TagRoundTrip()
      ensures FromTag(Tag()) == Some(this)
    {
    }

    /** The variant `Default::default` produces. */
    static function Default(): (r: AdvantageMode)
      ensures r.Tag() == "manual"
    {
      AdvantageMode.Manual
    }
  }

  /** How critical hits are rolled. */
  datatype CriticalHitRules = DoubleDice | MaxPlusRoll | Standard
  {
    /** The string serde writes for this variant. */
    function Tag(): string {
      match this
      case DoubleDice => "double_dice"
      case MaxPlusRoll => "max_plus_roll"
      case Standard => "standard"
    }

    /** The variant serde reads from `s`, if `s` is one of the tags. */
    static function FromTag(s: string): (r: Option<CriticalHitRules>)
      ensures r.Some? ==> r.value.Tag() == s
      ensures r.None? ==> forall v: CriticalHitRules :: v.Tag() != s
    {
      if s == "double_dice" then Some(CriticalHitRules.DoubleDice)
      else if s == "max_plus_roll" then Some(CriticalHitRules.MaxPlusRoll)
      else if s == "standard" then Some(CriticalHitRules.Standard)
      else Option.None
    }

    /** Decoding the tag of a variant gives that variant back, so no two variants share a tag. */
    lemma TagRoundTrip()
      ensures FromTag(Tag()) == Some(this)
    {
    }

    /** The variant `Default::default` produces. */
    static function Default(): (r: CriticalHitRules)
      ensures r.Tag() == "standard"
    {
      CriticalHitRules.Standard
    }
  }

  /** How initiative is rolled in combat. */
  datatype InitiativeType = Individual | Group | Side
  {
    /** The string serde writes for this variant. */
    function Tag(): string {
      match this
      case Individual => "individual"
      case Group => "group"
      case Side => "side"
    }

    /** The variant serde reads from `s`, if `s` is one of the tags. */
    static function FromTag(s: string): (r: Option<InitiativeType>)
      ensures r.Some? ==> r.value.Tag() == s
      ensures r.None? ==> forall v: InitiativeType :: v.Tag() != s
    {
      if s == "individual" then Some(InitiativeType.Individual)
      else if s == "group" then Some(InitiativeType.Group)
      else if s == "side" then Some(InitiativeType.Side)
      else Option.None
    }

    /** Decoding the tag of a variant gives that variant back, so no two variants share a tag. */
    lemma TagRoundTrip()
      ensures FromTag(Tag()) == Some(this)
    {
    }

    /** The variant `Default::default` produces. */
    static function Default(): (r: InitiativeType)
      ensures r.Tag() == "individual"
    {
      InitiativeType.Individual
    }
  }

  /** A character's training in one skill. */
  datatype SkillProficiency = None | Proficient | Expertise
  {
    /** The string serde writes for this variant. */
    function Tag(): string {
      match this
      case None => "none"
      case Proficient => "proficient"
      case Expertise => "expertise"
    }

    /** The variant serde reads from `s`, if `s` is one of the tags. */
    static function FromTag(s: string): (r: Option<SkillProficiency>)
      ensures r.Some? ==> r.value.Tag() == s
      ensures r.None? ==> forall v: SkillProficiency :: v.Tag() != s
    {
      if s == "none" then Some(SkillProficiency.None)
      else if s == "proficient" then Some(SkillProficiency.Proficient)
      else if s == "expertise" then Some(SkillProficiency.Expertise)
      else Option.None
    }

    /** Decoding the tag of a variant gives that variant back, so no two variants share a tag. */
    lemma TagRoundTrip()
      ensures FromTag(Tag()) == Some(this)
    {
    }

    /** The variant `Default::default` produces. */
    static function Default(): (r: SkillProficiency)
      ensures r.Tag() == "none"
    {
      SkillProficiency.None
    }
  }

  datatype ItemRarity = Common | Uncommon | Rare | VeryRare | Legendary | Artifact
  {
    /** The string serde writes for this variant. */
    function Tag(): string {
      match this
      case Common => "common"
      case Uncommon => "uncommon"
      case Rare => "rare"
      case VeryRare => "very_rare"
      case Legendary => "legendary"
      case Artifact => "artifact"
    }

    /** The variant serde reads from `s`, if `s` is one of the tags. */
    static function FromTag(s: string): (r: Option<ItemRarity>)
      ensures r.Some? ==> r.value.Tag() == s
      ensures r.None? ==> forall v: ItemRarity :: v.Tag() != s
    {
      if s == "common" then Some(ItemRarity.Common)
      else if s == "uncommon" then Some(ItemRarity.Uncommon)
      else if s == "rare" then Some(ItemRarity.Rare)
      else if s == "very_rare" then Some(ItemRarity.VeryRare)
      else if s == "legendary" then Some(ItemRarity.Legendary)
      else if s == "artifact" then Some(ItemRarity.Artifact)
      else Option.None
    }

    /** Decoding the tag of a variant gives that variant back, so no two variants share a tag. */
    lemma TagRoundTrip()
      ensures FromTag(Tag()) == Some(this)
    {
    }
  }

  datatype ItemType = AdventuringGear | Tool | Consumable | Treasure | MagicItem
  {
    /** The string serde writes for this variant. */
    function Tag(): string {
      match this
      case AdventuringGear => "adventuring_gear"
      case Tool => "tool"
      case Consumable => "consumable"
      case Treasure => "treasure"
      case MagicItem => "magic_item"
    }

    /** The variant serde reads from `s`, if `s` is one of the tags. */
    static function FromTag(s: string): (r: Option<ItemType>)
      ensures r.Some? ==> r.value.Tag() == s
      ensures r.None? ==> forall v: ItemType :: v.Tag() != s
    {
      if s == "adventuring_gear" then Some(ItemType.AdventuringGear)
      else if s == "tool" then Some(ItemType.Tool)
      else if s == "consumable" then Some(ItemType.Consumable)
      else if s == "treasure" then Some(ItemType.Treasure)
      else if s == "magic_item" then Some(ItemType.MagicItem)
      else Option.None
    }

    /** Decoding the tag of a variant gives that variant back, so no two variants share a tag. */
    lemma TagRoundTrip()
      ensures FromTag(Tag()) == Some(this)
    {
    }
  }

  datatype DamageType = Acid | Bludgeoning | Cold | Fire | Force | Lightning | Necrotic | Piercing | Poison | Psychic | Radiant | Slashing | Thunder
  {
    /** The string serde writes for this variant. */
    function Tag(): string {
      match this
      case Acid => "acid"
      case Bludgeoning => "bludgeoning"
      case Cold => "cold"
      case Fire => "fire"
      case Force => "force"
      case Lightning => "lightning"
      case Necrotic => "necrotic"
      case Piercing => "piercing"
      case Poison => "poison"
      case Psychic => "psychic"
      case Radiant => "radiant"
      case Slashing => "slashing"
      case Thunder => "thunder"
    }

    /** The variant serde reads from `s`, if `s` is one of the tags. */
    static function FromTag(s: string): (r: Option<DamageType>)
      ensures r.Some? ==> r.value.Tag() == s
      ensures r.None? ==> forall v: DamageType :: v.Tag() != s
    {
      if s == "acid" then Some(DamageType.Acid)
      else if s == "bludgeoning" then Some(DamageType.Bludgeoning)
      else if s == "cold" then Some(DamageType.Cold)
      else if s == "fire" then Some(DamageType.Fire)
      else if s == "force" then Some(DamageType.Force)
      else if s == "lightning" then Some(DamageType.Lightning)
      else if s == "necrotic" then Some(DamageType.Necrotic)
      else if s == "piercing" then Some(DamageType.Piercing)
      else if s == "poison" then Some(DamageType.Poison)
      else if s == "psychic" then Some(DamageType.Psychic)
      else if s == "radiant" then Some(DamageType.Radiant)
      else if s == "slashing" then Some(DamageType.Slashing)
      else if s == "thunder" then Some(DamageType.Thunder)
      else Option.None
    }

    /** Decoding the tag of a variant gives that variant back, so no two variants share a tag. */
    lemma TagRoundTrip()
      ensures FromTag(Tag()) == Some(this)
    {
    }
  }

  datatype WeaponProperty = Ammunition | Finesse | Heavy | Light | Loading | Reach | Special | Thrown | TwoHanded | Versatile
  {
    /** The string serde writes for this variant. */
    function Tag(): string {
      match this
      case Ammunition => "ammunition"
      case Finesse => "finesse"
      case Heavy => "heavy"
      case Light => "light"
      case Loading => "loading"
      case Reach => "reach"
      case Special => "special"
      case Thrown => "thrown"
      case TwoHanded => "two_handed"
      case Versatile => "versatile"
    }

    /** The variant serde reads from `s`, if `s` is one of the tags. */
    static function FromTag(s: string): (r: Option<WeaponProperty>)
      ensures r.Some? ==> r.value.Tag() == s
      ensures r.None? ==> forall v: WeaponProperty :: v.Tag() != s
    {
      if s == "ammunition" then Some(WeaponProperty.Ammunition)
      else if s == "finesse" then Some(WeaponProperty.Finesse)
      else if s == "heavy" then Some(WeaponProperty.Heavy)
      else if s == "light" then Some(WeaponProperty.Light)
      else if s == "loading" then Some(WeaponProperty.Loading)
      else if s == "reach" then Some(WeaponProperty.Reach)
      else if s == "special" then Some(WeaponProperty.Special)
      else if s == "thrown" then Some(WeaponProperty.Thrown)
      else if s == "two_handed" then Some(WeaponProperty.TwoHanded)
      else if s == "versatile" then Some(WeaponProperty.Versatile)
      else Option.None
    }

    /** Decoding the tag of a variant gives that variant back, so no two variants share a tag. */
    lemma TagRoundTrip()
      ensures FromTag(Tag()) == Some(this)
    {
    }
  }

  datatype ArmorType = Light | Medium | Heavy | Shield
  {
    /** The string serde writes for this variant. */
    function Tag(): string {
      match this
      case Light => "light"
      case Medium => "medium"
      case Heavy => "heavy"
      case Shield => "shield"
    }

    /** The variant serde reads from `s`, if `s` is one of the tags. */
    static function FromTag(s: string): (r: Option<ArmorType>)
      ensures r.Some? ==> r.value.Tag() == s
      ensures r.None? ==> forall v: ArmorType :: v.Tag() != s
    {
      if s == "light" then Some(ArmorType.Light)
      else if s == "medium" then Some(ArmorType.Medium)
      else if s == "heavy" then Some(ArmorType.Heavy)
      else if s == "shield" then Some(ArmorType.Shield)
      else Option.None
    }

    /** Decoding the tag of a variant gives that variant back, so no two variants share a tag. */
    lemma TagRoundTrip()
      ensures FromTag(Tag()) == Some(this)
    {
    }
  }

  datatype SpellSchool = Abjuration | Conjuration | Divination | Enchantment | Evocation | Illusion | Necromancy | Transmutation
  {
    /** The string serde writes for this variant. */
    function Tag(): string {
      match this
      case Abjuration => "abjuration"
      case Conjuration => "conjuration"
      case Divination => "divination"
      case Enchantment => "enchantment"
      case Evocation => "evocation"
      case Illusion => "illusion"
      case Necromancy => "necromancy"
      case Transmutation => "transmutation"
    }

    /** The variant serde reads from `s`, if `s` is one of the tags. */
    static function FromTag(s: string): (r: Option<SpellSchool>)
      ensures r.Some? ==> r.value.Tag() == s
      ensures r.None? ==> forall v: SpellSchool :: v.Tag() != s
    {
      if s == "abjuration" then Some(SpellSchool.Abjuration)
      else if s == "conjuration" then Some(SpellSchool.Conjuration)
      else if s == "divination" then Some(SpellSchool.Divination)
      else if s == "enchantment" then Some(SpellSchool.Enchantment)
      else if s == "evocation" then Some(SpellSchool.Evocation)
      else if s == "illusion" then Some(SpellSchool.Illusion)
      else if s == "necromancy" then Some(SpellSchool.Necromancy)
      else if s == "transmutation" then Some(SpellSchool.Transmutation)
      else Option.None
    }

    /** Decoding the tag of a variant gives that variant back, so no two variants share a tag. */
    lemma TagRoundTrip()
      ensures FromTag(Tag()) == Some(this)
    {
    }
  }

  datatype FeatureSource = Class | Race | Background | Feat | MagicItem
  {
    /** The string serde writes for this variant. */
    function Tag(): string {
      match this
      case Class => "class"
      case Race => "race"
      case Background => "background"
      case Feat => "feat"
      case MagicItem => "magic_item"
    }

    /** The variant serde reads from `s`, if `s` is one of the tags. */
    static function FromTag(s: string): (r: Option<FeatureSource>)
      ensures r.Some? ==> r.value.Tag() == s
      ensures r.None? ==> forall v: FeatureSource :: v.Tag() != s
    {
      if s == "class" then Some(FeatureSource.Class)
      else if s == "race" then Some(FeatureSource.Race)
      else if s == "background" then Some(FeatureSource.Background)
      else if s == "feat" then Some(FeatureSource.Feat)
      else if s == "magic_item" then Some(FeatureSource.MagicItem)
      else Option.None
    }

    /** Decoding the tag of a variant gives that variant back, so no two variants share a tag. */
    lemma TagRoundTrip()
      ensures FromTag(Tag()) == Some(this)
    {
    }
  }

  datatype RechargeType = ShortRest | LongRest | Daily | Weekly
  {
    /** The string serde writes for this variant. */
    function Tag(): string {
      match this
      case ShortRest => "short_rest"
      case LongRest => "long_rest"
      case Daily => "daily"
      case Weekly => "weekly"
    }

    /** The variant serde reads from `s`, if `s` is one of the tags. */
    static function FromTag(s: string): (r: Option<RechargeType>)
      ensures r.Some? ==> r.value.Tag() == s
      ensures r.None? ==> forall v: RechargeType :: v.Tag() != s
    {
      if s == "short_rest" then Some(RechargeType.ShortRest)
      else if s == "long_rest" then Some(RechargeType.LongRest)
      else if s == "daily" then Some(RechargeType.Daily)
      else if s == "weekly" then Some(RechargeType.Weekly)
      else Option.None
    }

    /** Decoding the tag of a variant gives that variant back, so no two variants share a tag. */
    lemma TagRoundTrip()
      ensures FromTag(Tag()) == Some(this)
    {
    }
  }

  /** The footprint class of a token; variants are listed from smallest to largest. */
  datatype TokenSize = Tiny | Small | Medium | Large | Huge | Gargantuan
  {
    /** The string serde writes for this variant. */
    function Tag(): string {
      match this
      case Tiny => "tiny"
      case Small => "small"
      case Medium => "medium"
      case Large => "large"
      case Huge => "huge"
      case Gargantuan => "gargantuan"
    }

    /** The variant serde reads from `s`, if `s` is one of the tags. */
    static function FromTag(s: string): (r: Option<TokenSize>)
      ensures r.Some? ==> r.value.Tag() == s
      ensures r.None? ==> forall v: TokenSize :: v.Tag() != s
    {
      if s == "tiny" then Some(TokenSize.Tiny)
      else if s == "small" then Some(TokenSize.Small)
      else if s == "medium" then Some(TokenSize.Medium)
      else if s == "large" then Some(TokenSize.Large)
      else if s == "huge" then Some(TokenSize.Huge)
      else if s == "gargantuan" then Some(TokenSize.Gargantuan)
      else Option.None
    }

    /** Decoding the tag of a variant gives that variant back, so no two variants share a tag. */
    lemma TagRoundTrip()
      ensures FromTag(Tag()) == Some(this)
    {
    }
  }

  datatype RollType = Normal | Advantage | Disadvantage | Critical
  {
    /** The string serde writes for this variant. */
    function Tag(): string {
      match this
      case Normal => "normal"
      case Advantage => "advantage"
      case Disadvantage => "disadvantage"
      case Critical => "critical"
    }

    /** The variant serde reads from `s`, if `s` is one of the tags. */
    static function FromTag(s: string): (r: Option<RollType>)
      ensures r.Some? ==> r.value.Tag() == s
      ensures r.None? ==> forall v: RollType :: v.Tag() != s
    {
      if s == "normal" then Some(RollType.Normal)
      else if s == "advantage" then Some(RollType.Advantage)
      else if s == "disadvantage" then Some(RollType.Disadvantage)
      else if s == "critical" then Some(RollType.Critical)
      else Option.None
    }

    /** Decoding the tag of a variant gives that variant back, so no two variants share a tag. */
    lemma TagRoundTrip()
      ensures FromTag(Tag()) == Some(this)
    {
    }
  }

  datatype MessageType = Chat | DiceRoll | TokenUpdate | MapChange | Initiative | System
  {
    /** The string serde writes for this variant. */
    function Tag(): string {
      match this
      case Chat => "chat"
      case DiceRoll => "dice_roll"
      case TokenUpdate => "token_update"
      case MapChange => "map_change"
      case Initiative => "initiative"
      case System => "system"
    }

    /** The variant serde reads from `s`, if `s` is one of the tags. */
    static function FromTag(s: string): (r: Option<MessageType>)
      ensures r.Some? ==> r.value.Tag() == s
      ensures r.None? ==> forall v: MessageType :: v.Tag() != s
    {
      if s == "chat" then Some(MessageType.Chat)
      else if s == "dice_roll" then Some(MessageType.DiceRoll)
      else if s == "token_update" then Some(MessageType.TokenUpdate)
      else if s == "map_change" then Some(MessageType.MapChange)
      else if s == "initiative" then Some(MessageType.Initiative)
      else if s == "system" then Some(MessageType.System)
      else Option.None
    }

    /** Decoding the tag of a variant gives that variant back, so no two variants share a tag. */
    lemma TagRoundTrip()
      ensures FromTag(Tag()) == Some(this)
    {
    }
  }

  datatype PlayerRole = DungeonMaster | Player | Observer
  {
    /** The string serde writes for this variant. */
    function Tag(): string {
      match this
      case DungeonMaster => "dm"
      case Player => "player"
      case Observer => "observer"
    }

    /** The variant serde reads from `s`, if `s` is one of the tags. */
    static function FromTag(s: string): (r: Option<PlayerRole>)
      ensures r.Some? ==> r.value.Tag() == s
      ensures r.None? ==> forall v: PlayerRole :: v.Tag() != s
    {
      if s == "dm" then Some(PlayerRole.DungeonMaster)
      else if s == "player" then Some(PlayerRole.Player)
      else if s == "observer" then Some(PlayerRole.Observer)
      else Option.None
    }

    /** Decoding the tag of a variant gives that variant back, so no two variants share a tag. */
    lemma TagRoundTrip()
      ensures FromTag(Tag()) == Some(this)
    {
    }
  }

  datatype AssetType = Map | Token | Portrait | Handout | Audio | Other
  {
    /** The string serde writes for this variant. */
    function Tag(): string {
      match this
      case Map => "map"
      case Token => "token"
      case Portrait => "portrait"
      case Handout => "handout"
      case Audio => "audio"
      case Other => "other"
    }

    /** The variant serde reads from `s`, if `s` is one of the tags. */
    static function FromTag(s: string): (r: Option<AssetType>)
      ensures r.Some? ==> r.value.Tag() == s
      ensures r.None? ==> forall v: AssetType :: v.Tag() != s
    {
      if s == "map" then Some(AssetType.Map)
      else if s == "token" then Some(AssetType.Token)
      else if s == "portrait" then Some(AssetType.Portrait)
      else if s == "handout" then Some(AssetType.Handout)
      else if s == "audio" then Some(AssetType.Audio)
      else if s == "other" then Some(AssetType.Other)
      else Option.None
    }

    /** Decoding the tag of a variant gives that variant back, so no two variants share a tag. */
    lemma TagRoundTrip()
      ensures FromTag(Tag()) == Some(this)
    {
    }
  }
  /** The shape of a revealed fog-of-war area; a polygon carries its corner points. */
  datatype AreaShape = Circle | Square | Polygon(points: seq<Position>)
  {
    /** The variant name serde writes (a polygon as the key of its point list). */
    function Tag(): string {
      match this
      case Circle => "circle"
      case Square => "square"
      case Polygon(_) => "polygon"
    }
  }

  /** Shapes of different kinds never share a tag. */
  lemma AreaShapeTagsDistinct(a: AreaShape, b: AreaShape)
    ensures a.Tag() == b.Tag() <==> (a.Circle? && b.Circle?) || (a.Square? && b.Square?) || (a.Polygon? && b.Polygon?)
  {
  }

  // ---------------------------------------------------------------------------
  // Campaigns
  // ---------------------------------------------------------------------------

  datatype Campaign = Campaign(
    id: string,
    name: string,
    description: Option<string>,
    dmName: string,
    settings: CampaignSettings,
    createdAt: int,
    updatedAt: int,
    isActive: bool)

  datatype CampaignSettings = CampaignSettings(
    system: GameSystem,
    houseRules: seq<HouseRule>,
    variantRules: VariantRules,
    diceRolling: DiceSettings,
    combatSettings: CombatSettings)

  datatype HouseRule = HouseRule(id: string, name: string, description: string, isEnabled: bool)

  datatype VariantRules = VariantRules(
    flanking: bool,
    feats: bool,
    multiclassing: bool,
    optionalClassFeatures: bool,
    customizingAbilityScores: bool)

  datatype DiceSettings = DiceSettings(
    advantageMode: AdvantageMode,
    criticalHitRules: CriticalHitRules,
    fumbleRules: bool,
    explodingDice: bool)

  datatype CombatSettings = CombatSettings(
    initiativeType: InitiativeType,
    deathSaves: bool,
    healingSurge: bool,
    actionSurgeLimit: U8)

  /** The derived `Default` of the campaign settings: every part at its own default. */
  function DefaultCampaignSettings(): (r: CampaignSettings)
    ensures r.system == GameSystem.Default() && r.houseRules == []
    ensures !r.variantRules.flanking && !r.variantRules.feats && !r.variantRules.multiclassing
    ensures !r.variantRules.optionalClassFeatures && !r.variantRules.customizingAbilityScores
    ensures r.diceRolling.advantageMode == AdvantageMode.Default()
    ensures r.diceRolling.criticalHitRules == CriticalHitRules.Default()
    ensures !r.diceRolling.fumbleRules && !r.diceRolling.explodingDice
    ensures r.combatSettings.initiativeType == InitiativeType.Default()
    ensures !r.combatSettings.deathSaves && !r.combatSettings.healingSurge && r.combatSettings.actionSurgeLimit == 0
  {
    CampaignSettings(
      GameSystem.Default(),
      [],
      VariantRules(false, false, false, false, false),
      DiceSettings(AdvantageMode.Default(), CriticalHitRules.Default(), false, false),
      CombatSettings(InitiativeType.Default(), false, false, 0))
  }

  // ---------------------------------------------------------------------------
  // Characters
  // ---------------------------------------------------------------------------

  datatype Character = Character(
    id: string,
    campaignId: string,
    name: string,
    playerName: Option<string>,
    characterClass: string,
    level: int,
    race: string,
    background: string,
    stats: CharacterStats,
    combatStats: CombatStats,
    skills: Skills,
    equipment: Equipment,
    spells: seq<Spell>,
    features: seq<Feature>,
    notes: string,
    avatarUrl: Option<string>,
    isNpc: bool,
    createdAt: int,
    updatedAt: int)

  datatype CharacterStats = CharacterStats(
    strength: int,
    dexterity: int,
    constitution: int,
    intelligence: int,
    wisdom: int,
    charisma: int,
    proficiencyBonus: int)

  datatype CombatStats = CombatStats(
    armorClass: int,
    hitPoints: int,
    maxHitPoints: int,
    temporaryHitPoints: int,
    speed: int,
    initiativeBonus: int,
    deathSavesSuccess: int,
    deathSavesFailure: int,
    conditions: seq<Condition>)

  datatype Condition = Condition(name: string, description: string, duration: Option<int>, source: string)

  datatype Skills = Skills(
    acrobatics: SkillProficiency,
    animalHandling: SkillProficiency,
    arcana: SkillProficiency,
    athletics: SkillProficiency,
    deception: SkillProficiency,
    history: SkillProficiency,
    insight: SkillProficiency,
    intimidation: SkillProficiency,
    investigation: SkillProficiency,
    medicine: SkillProficiency,
    nature: SkillProficiency,
    perception: SkillProficiency,
    performance: SkillProficiency,
    persuasion: SkillProficiency,
    religion: SkillProficiency,
    sleightOfHand: SkillProficiency,
    stealth: SkillProficiency,
    survival: SkillProficiency)

  datatype Equipment = Equipment(items: seq<Item>, weapons: seq<Weapon>, armor: seq<Armor>, currency: Currency)

  datatype Item = Item(
    id: string,
    name: string,
    description: string,
    quantity: int,
    weight: real,
    value: int,
    rarity: ItemRarity,
    itemType: ItemType)

  datatype Weapon = Weapon(
    id: string,
    name: string,
    damageDice: string,
    damageType: DamageType,
    properties: seq<WeaponProperty>,
    range: Option<WeaponRange>,
    isEquipped: bool)

  datatype WeaponRange = WeaponRange(normal: int, long: Option<int>)

  datatype Armor = Armor(
    id: string,
    name: string,
    armorClass: int,
    armorType: ArmorType,
    stealthDisadvantage: bool,
    isEquipped: bool)

  /** A purse of coins; one silver is 10 copper, electrum 50, gold 100 and platinum 1000. */
  datatype Currency = Currency(copper: int, silver: int, electrum: int, gold: int, platinum: int)

  datatype Spell = Spell(
    id: string,
    name: string,
    level: int,
    school: SpellSchool,
    castingTime: string,
    range: string,
    components: SpellComponents,
    duration: string,
    description: string,
    isPrepared: bool,
    isRitual: bool,
    damage: Option<SpellDamage>)

  datatype SpellComponents = SpellComponents(
    verbal: bool,
    somatic: bool,
    material: bool,
    materialDescription: Option<string>)

  datatype SpellDamage = SpellDamage(damageDice: string, damageType: DamageType, scaling: Option<SpellScaling>)

  datatype SpellScaling = SpellScaling(perLevel: string, maxLevel: int)

  datatype Feature = Feature(
    id: string,
    name: string,
    description: string,
    source: FeatureSource,
    uses: Option<FeatureUses>)

  datatype FeatureUses = FeatureUses(maxUses: int, currentUses: int, recharge: RechargeType)

  /** The derived `Default` of the combat block: every number zero and no conditions. */
  function DefaultCombatStats(): (r: CombatStats)
    ensures r.armorClass == 0 && r.hitPoints == 0 && r.maxHitPoints == 0 && r.temporaryHitPoints == 0
    ensures r.speed == 0 && r.initiativeBonus == 0 && r.deathSavesSuccess == 0 && r.deathSavesFailure == 0
    ensures r.conditions == []
  {
    CombatStats(0, 0, 0, 0, 0, 0, 0, 0, [])
  }

  /** The derived `Default` of the skills block: untrained in every skill. */
  function DefaultSkills(): (r: Skills)
    ensures r.acrobatics == r.animalHandling == r.arcana == r.athletics == r.deception == r.history == SkillProficiency.Default()
    ensures r.insight == r.intimidation == r.investigation == r.medicine == r.nature == r.perception == SkillProficiency.Default()
    ensures r.performance == r.persuasion == r.religion == r.sleightOfHand == r.stealth == r.survival == SkillProficiency.Default()
  {
    var n := SkillProficiency.Default();
    Skills(n, n, n, n, n, n, n, n, n, n, n, n, n, n, n, n, n, n)
  }

  /** The derived `Default` of the equipment block: no items, weapons or armour and an empty purse. */
  function DefaultEquipment(): (r: Equipment)
    ensures r.items == [] && r.weapons == [] && r.armor == []
    ensures r.currency.copper == r.currency.silver == r.currency.electrum == r.currency.gold == r.currency.platinum == 0
  {
    Equipment([], [], [], Currency(0, 0, 0, 0, 0))
  }

  // ---------------------------------------------------------------------------
  // Maps and tokens
  // ---------------------------------------------------------------------------

  datatype Map = Map(
    id: string,
    campaignId: string,
    name: string,
    description: Option<string>,
    imageUrl: string,
    gridSize: int,
    width: int,
    height: int,
    tokens: seq<Token>,
    fogOfWar: Option<FogOfWar>,
    createdAt: int,
    updatedAt: int)

  datatype Token = Token(
    id: string,
    characterId: Option<string>,
    name: string,
    imageUrl: Option<string>,
    position: Position,
    size: TokenSize,
    conditions: seq<string>,
    notes: string,
    isHidden: bool,
    initiative: Option<int>)

  /** A point on the map; `z` is the elevation, when one is set. */
  datatype Position = Position(x: real, y: real, z: Option<real>)

  datatype FogOfWar = FogOfWar(revealedAreas: seq<RevealedArea>, isEnabled: bool)

  datatype RevealedArea = RevealedArea(x: real, y: real, radius: real, shape: AreaShape)

  // ---------------------------------------------------------------------------
  // Requests
  // ---------------------------------------------------------------------------

  datatype CreateCampaignData = CreateCampaignData(
    name: string,
    description: Option<string>,
    dmName: string,
    settings: CampaignSettings)

  /** A sparse campaign patch: only the fields that are present are to change. */
  datatype UpdateCampaignRequest = UpdateCampaignRequest(
    name: Option<string>,
    description: Option<string>,
    settings: Option<CampaignSettings>)

  datatype CreateCharacterRequest = CreateCharacterRequest(
    campaignId: string,
    name: string,
    playerName: Option<string>,
    characterClass: string,
    level: int,
    race: string,
    background: string,
    stats: CharacterStats,
    isNpc: bool)

  /** A sparse character patch: only the fields that are present are to change. */
  datatype UpdateCharacterRequest = UpdateCharacterRequest(
    name: Option<string>,
    level: Option<int>,
    stats: Option<CharacterStats>,
    combatStats: Option<CombatStats>,
    equipment: Option<Equipment>,
    notes: Option<string>)

  datatype CreateMapRequest = CreateMapRequest(
    campaignId: string,
    name: string,
    description: Option<string>,
    imageUrl: string,
    gridSize: int,
    width: int,
    height: int)

  datatype CreateTokenRequest = CreateTokenRequest(
    mapId: string,
    characterId: Option<string>,
    name: string,
    imageUrl: Option<string>,
    position: Position,
    size: TokenSize)

  datatype UpdateTokenPositionRequest = UpdateTokenPositionRequest(tokenId: string, position: Position)

  // ---------------------------------------------------------------------------
  // Dice, network and asset records
  // ---------------------------------------------------------------------------

  datatype DiceRoll = DiceRoll(
    diceNotation: string,
    individualRolls: seq<int>,
    modifiers: seq<DiceModifier>,
    total: int,
    rollType: RollType)

  datatype DiceModifier = DiceModifier(name: string, value: int, source: string)

  datatype InitiativeRoll = InitiativeRoll(
    characterId: string,
    characterName: string,
    roll: DiceRoll,
    initiativeBonus: int,
    total: int)

  /** A message between peers; its free-form JSON content is kept as text. */
  datatype NetworkMessage = NetworkMessage(
    id: string,
    senderId: string,
    senderName: string,
    messageType: MessageType,
    content: string,
    timestamp: int)

  datatype ChatMessage = ChatMessage(
    message: string,
    isWhisper: bool,
    targetPlayers: Option<seq<string>>,
    isInCharacter: bool)

  datatype PeerInfo = PeerInfo(id: string, name: string, role: PlayerRole, isConnected: bool, lastSeen: int)

  /** An imported file; an asset without a campaign is global and shows in every campaign. */
  datatype Asset = Asset(
    id: string,
    campaignId: Option<string>,
    name: string,
    filePath: string,
    assetType: AssetType,
    fileSize: int,
    mimeType: string,
    tags: seq<string>,
    createdAt: int)

  // ---------------------------------------------------------------------------
  // Ability modifiers and saving throws
  // ---------------------------------------------------------------------------

  datatype Ability = Strength | Dexterity | Constitution | Intelligence | Wisdom | Charisma

  function FullName(a: Ability): string {
    match a
    case Strength => "strength"
    case Dexterity => "dexterity"
    case Constitution => "constitution"
    case Intelligence => "intelligence"
    case Wisdom => "wisdom"
    case Charisma => "charisma"
  }

  function ShortName(a: Ability): string {
    match a
    case Strength => "str"
    case Dexterity => "dex"
    case Constitution => "con"
    case Intelligence => "int"
    case Wisdom => "wis"
    case Charisma => "cha"
  }

  /** Each abbreviation is the first three letters of the full name. */
  lemma ShortNameIsPrefix(a: Ability)
    ensures ShortName(a) == FullName(a)[..3]
  {
  }

  function Score(stats: CharacterStats, a: Ability): int {
    match a
    case Strength => stats.strength
    case Dexterity => stats.dexterity
    case Constitution => stats.constitution
    case Intelligence => stats.intelligence
    case Wisdom => stats.wisdom
    case Charisma => stats.charisma
  }

  /** Lower-cases ASCII letters and leaves every other character alone. */
  function AsciiLower(c: char): (r: char)
    ensures 'A' <= c <= 'Z' ==> r as int == c as int + 32
    ensures !('A' <= c <= 'Z') ==> r == c
  {
    if 'A' <= c <= 'Z' then (c as int + 32) as char else c
  }

  /**
   * `str::to_lowercase`, restricted to ASCII letters. The only non-ASCII
   * character whose lower case is an ASCII letter is the Kelvin sign (to `k`),
   * and no ability name contains a `k`, so matching a lowered name against the
   * ability names gives the same answer as the Unicode mapping.
   */
  function ToLower(s: string): (r: string)
    ensures |r| == |s|
    ensures forall i :: 0 <= i < |s| ==> r[i] == AsciiLower(s[i])
  {
    seq(|s|, i requires 0 <= i < |s| => AsciiLower(s[i]))
  }

  lemma ToLowerIdempotent(s: string)
    ensures ToLower(ToLower(s)) == ToLower(s)
  {
    var l := ToLower(s);
    assert forall i :: 0 <= i < |l| ==> AsciiLower(l[i]) == l[i];
  }

  /** The ability a lower-case stat name denotes: a full name or its abbreviation. */
  function AbilityOf(name: string): (r: Option<Ability>)
    ensures r.Some? ==> name == FullName(r.value) || name == ShortName(r.value)
    ensures r.None? ==> forall a: Ability :: name != FullName(a) && name != ShortName(a)
  {
    match name
    case "strength" => Some(Strength)
    case "str" => Some(Strength)
    case "dexterity" => Some(Dexterity)
    case "dex" => Some(Dexterity)
    case "constitution" => Some(Constitution)
    case "con" => Some(Constitution)
    case "intelligence" => Some(Intelligence)
    case "int" => Some(Intelligence)
    case "wisdom" => Some(Wisdom)
    case "wis" => Some(Wisdom)
    case "charisma" => Some(Charisma)
    case "cha" => Some(Charisma)
    case _ => Option.None
  }

  /** The ability a stat name denotes, in any letter case. */
  function AbilityNamed(stat: string): Option<Ability> {
    AbilityOf(ToLower(stat))
  }

  /**
   * `CharacterStats::get_modifier`: half of the score's distance from 10,
   * truncated toward zero as Rust's `/` does; 0 for a name that is no ability.
   */
  function GetModifier(stats: CharacterStats, stat: string): (r: int)
    ensures AbilityNamed(stat).None? ==> r == 0
    ensures AbilityNamed(stat).Some? ==>
      var d := Score(stats, AbilityNamed(stat).value) - 10;
      -2 < d - 2 * r < 2 && (d >= 0 ==> d - 2 * r >= 0) && (d <= 0 ==> d - 2 * r <= 0)
  {
    match AbilityNamed(stat)
    case Some(a) => TruncDiv(Score(stats, a) - 10, 2)
    case None => 0
  }

  /** Lower-casing leaves a string without capital ASCII letters unchanged. */
  lemma ToLowerOfLower(s: string)
    requires forall i :: 0 <= i < |s| ==> !('A' <= s[i] <= 'Z')
    ensures ToLower(s) == s
  {
  }

  /** Every ability name and abbreviation is written in lower case. */
  lemma NamesAreLowerCase(a: Ability)
    ensures ToLower(FullName(a)) == FullName(a) && ToLower(ShortName(a)) == ShortName(a)
  {
    match a
    case Strength => ToLowerOfLower("strength"); ToLowerOfLower("str");
    case Dexterity => ToLowerOfLower("dexterity"); ToLowerOfLower("dex");
    case Constitution => ToLowerOfLower("constitution"); ToLowerOfLower("con");
    case Intelligence => ToLowerOfLower("intelligence"); ToLowerOfLower("int");
    case Wisdom => ToLowerOfLower("wisdom"); ToLowerOfLower("wis");
    case Charisma => ToLowerOfLower("charisma"); ToLowerOfLower("cha");
  }

  lemma AbilityOfNames(a: Ability)
    ensures AbilityOf(FullName(a)) == AbilityOf(ShortName(a)) == Some(a)
  {
  }

  /** Every ability name and abbreviation, as written, names its ability. */
  lemma NamesDenoteTheirAbility(a: Ability)
    ensures AbilityNamed(FullName(a)) == AbilityNamed(ShortName(a)) == Some(a)
  {
    NamesAreLowerCase(a);
    AbilityOfNames(a);
  }

  /** A score of 9 gives 0 and a score of 8 gives -1: Rust rounds the half toward zero. */
  lemma GetModifierExamples(stats: CharacterStats)
    ensures stats.strength == 9 ==> GetModifier(stats, "strength") == 0
    ensures stats.strength == 8 ==> GetModifier(stats, "STR") == -1
    ensures stats.wisdom == 10 ==> GetModifier(stats, "Wis") == 0
    ensures stats.charisma == 20 ==> GetModifier(stats, "charisma") == 5
    ensures stats.dexterity == 1 ==> GetModifier(stats, "dex") == -4
    ensures GetModifier(stats, "luck") == 0
  {
    NamesDenoteTheirAbility(Strength);
    NamesDenoteTheirAbility(Wisdom);
    NamesDenoteTheirAbility(Charisma);
    NamesDenoteTheirAbility(Dexterity);
    assert ToLower("STR") == "str";
    assert ToLower("Wis") == "wis";
    ToLowerOfLower("luck");
    if stats.strength == 9 { TruncDiv2Unique(-1, 0); }
    if stats.strength == 8 { TruncDiv2Unique(-2, -1); }
    if stats.dexterity == 1 { TruncDiv2Unique(-9, -4); }
  }

  /** The modifier does not depend on the letter case of the stat name. */
  lemma GetModifierIgnoresCase(stats: CharacterStats, stat: string)
    ensures GetModifier(stats, stat) == GetModifier(stats, ToLower(stat))
  {
    ToLowerIdempotent(stat);
  }

  /** A full ability name and its abbreviation give the same modifier, that ability's. */
  lemma GetModifierAbbreviation(stats: CharacterStats, a: Ability)
    ensures GetModifier(stats, FullName(a)) == GetModifier(stats, ShortName(a)) == TruncDiv(Score(stats, a) - 10, 2)
  {
    NamesDenoteTheirAbility(a);
  }

  /** A higher score never gives a lower modifier. */
  lemma GetModifierMonotone(s1: CharacterStats, s2: CharacterStats, stat: string)
    requires AbilityNamed(stat).Some?
    requires Score(s1, AbilityNamed(stat).value) <= Score(s2, AbilityNamed(stat).value)
    ensures GetModifier(s1, stat) <= GetModifier(s2, stat)
  {
    var a := AbilityNamed(stat).value;
    TruncDiv2Monotone(Score(s1, a) - 10, Score(s2, a) - 10);
  }

  /** For a 32-bit score that does not underflow `score - 10`, the modifier is a 32-bit value. */
  lemma GetModifierInRange(stats: CharacterStats, stat: string)
    requires AbilityNamed(stat).Some? ==> I32_MIN + 10 <= Score(stats, AbilityNamed(stat).value) <= I32_MAX
    ensures IsI32(GetModifier(stats, stat))
  {
  }

  /** `CharacterStats::get_saving_throw`: the modifier, plus the proficiency bonus when proficient. */
  function GetSavingThrow(stats: CharacterStats, stat: string, proficient: bool): (r: int)
    ensures proficient ==> r == GetModifier(stats, stat) + stats.proficiencyBonus
    ensures !proficient ==> r == GetModifier(stats, stat)
  {
    var modifier := GetModifier(stats, stat);
    if proficient then modifier + stats.proficiencyBonus else modifier
  }

  /**
   * Where `modifier + self.proficiency_bonus` stays an `i32`: scores in the
   * range of `GetModifierInRange` and a bonus within 2^30 either way.
   */
  lemma GetSavingThrowInRange(stats: CharacterStats, stat: string, proficient: bool)
    requires AbilityNamed(stat).Some? ==> I32_MIN + 10 <= Score(stats, AbilityNamed(stat).value) <= I32_MAX
    requires -0x4000_0000 <= stats.proficiencyBonus <= 0x4000_0000
    ensures IsI32(GetSavingThrow(stats, stat, proficient))
  {
  }

  /** The bound on the bonus is needed: a dexterity of 20 and a bonus of `i32::MAX` overflow the sum. */
  lemma GetSavingThrowCanOverflow()
    ensures !IsI32(GetSavingThrow(CharacterStats(10, 20, 10, 10, 10, 10, I32_MAX), "dex", true))
  {
    NamesDenoteTheirAbility(Dexterity);
  }

  /** Proficiency adds exactly the proficiency bonus; an unknown stat saves at the bare bonus or 0. */
  lemma SavingThrowProficiency(stats: CharacterStats, stat: string)
    ensures GetSavingThrow(stats, stat, true) - GetSavingThrow(stats, stat, false) == stats.proficiencyBonus
    ensures AbilityNamed(stat).None? ==> GetSavingThrow(stats, stat, false) == 0
  {
  }

  // ---------------------------------------------------------------------------
  // Currency
  // ---------------------------------------------------------------------------

  /** `Currency::total_in_copper`: the purse's worth in copper pieces. */
  function TotalInCopper(c: Currency): int {
    c.copper + (c.silver * 10) + (c.electrum * 50) + (c.gold * 100) + (c.platinum * 1000)
  }

  predicate NonNegative(c: Currency) {
    c.copper >= 0 && c.silver >= 0 && c.electrum >= 0 && c.gold >= 0 && c.platinum >= 0
  }

  /** `c` holds no more of any coin than `d`. */
  predicate CoinsAtMost(c: Currency, d: Currency) {
    c.copper <= d.copper && c.silver <= d.silver && c.electrum <= d.electrum && c.gold <= d.gold && c.platinum <= d.platinum
  }

  lemma TotalInCopperNonNegative(c: Currency)
    requires NonNegative(c)
    ensures TotalInCopper(c) >= 0
    ensures TotalInCopper(c) >= c.copper && TotalInCopper(c) >= 1000 * c.platinum
  {
  }

  /** Adding coins of any kind never lowers the total. */
  lemma TotalInCopperMonotone(c: Currency, d: Currency)
    requires CoinsAtMost(c, d)
    ensures TotalInCopper(c) <= TotalInCopper(d)
  {
  }

  /** Changing coins at the fixed rates keeps the total. */
  lemma TotalInCopperExchange(c: Currency)
    ensures TotalInCopper(c.(copper := c.copper + 10)) == TotalInCopper(c.(silver := c.silver + 1))
    ensures TotalInCopper(c.(silver := c.silver + 5)) == TotalInCopper(c.(electrum := c.electrum + 1))
    ensures TotalInCopper(c.(electrum := c.electrum + 2)) == TotalInCopper(c.(gold := c.gold + 1))
    ensures TotalInCopper(c.(gold := c.gold + 10)) == TotalInCopper(c.(platinum := c.platinum + 1))
  {
  }

  /** With at most 100000 of each coin the sum fits in an `i32`, so the Rust addition cannot overflow. */
  lemma TotalInCopperFitsI32(c: Currency)
    requires NonNegative(c)
    requires c.copper <= 100000 && c.silver <= 100000 && c.electrum <= 100000 && c.gold <= 100000 && c.platinum <= 100000
    ensures IsI32(TotalInCopper(c)) && TotalInCopper(c) <= 116100000
  {
  }

  /** The i32 bound is real: 2147484 platinum alone is past `i32::MAX` copper. */
  lemma TotalInCopperCanOverflow()
    ensures !IsI32(TotalInCopper(Currency(0, 0, 0, 0, 2147484)))
  {
  }

  // ---------------------------------------------------------------------------
  // Token footprints
  // ---------------------------------------------------------------------------

  /** The side of a token's footprint in grid squares. */
  function Side(s: TokenSize): nat {
    match s
    case Tiny => 1
    case Small => 1
    case Medium => 1
    case Large => 2
    case Huge => 3
    case Gargantuan => 4
  }

  /** The position of a size in the order tiny < small < medium < large < huge < gargantuan. */
  function Rank(s: TokenSize): nat {
    match s
    case Tiny => 0
    case Small => 1
    case Medium => 2
    case Large => 3
    case Huge => 4
    case Gargantuan => 5
  }

  /** `TokenSize::grid_squares`: the number of grid squares a token covers, a square footprint. */
  function GridSquares(s: TokenSize): (r: int)
    ensures r == Side(s) * Side(s) && r >= 1
    ensures s.Tiny? || s.Small? || s.Medium? ==> r == 1
  {
    match s
    case Tiny => 1
    case Small => 1
    case Medium => 1
    case Large => 4
    case Huge => 9
    case Gargantuan => 16
  }

  /** A larger size never covers fewer squares. */
  lemma GridSquaresMonotone(a: TokenSize, b: TokenSize)
    requires Rank(a) <= Rank(b)
    ensures GridSquares(a) <= GridSquares(b)
  {
  }
}
