/**
 * The one live helper of the Tauri command layer: the dexterity modifier of
 * the command-side `CharacterStats`, which has the six scores and no
 * proficiency bonus.
 */
module Commands {
  import opened RustInt
  import Models

  datatype CharacterStats = CharacterStats(
    strength: int,
    dexterity: int,
    constitution: int,
    intelligence: int,
    wisdom: int,
    charisma: int)

  /** `CharacterStats::dexterity_modifier`: `(dexterity - 10) / 2` with Rust's truncating division. */
  function DexterityModifier(stats: CharacterStats): (r: int)
    ensures var d := stats.dexterity - 10;
      -2 < d - 2 * r < 2 && (d >= 0 ==> d - 2 * r >= 0) && (d <= 0 ==> d - 2 * r <= 0)
  {
    TruncDiv(stats.dexterity - 10, 2)
  }

  /** Dexterity 9, 10 and 11 give 0; 8 gives -1 (the half rounds toward zero, not down). */
  lemma DexterityModifierExamples(stats: CharacterStats)
    ensures stats.dexterity == 9 ==> DexterityModifier(stats) == 0
    ensures stats.dexterity == 10 ==> DexterityModifier(stats) == 0
    ensures stats.dexterity == 11 ==> DexterityModifier(stats) == 0
    ensures stats.dexterity == 8 ==> DexterityModifier(stats) == -1
    ensures stats.dexterity == 7 ==> DexterityModifier(stats) == -1
  {
    if stats.dexterity == 9 { TruncDiv2Unique(-1, 0); }
    if stats.dexterity == 8 { TruncDiv2Unique(-2, -1); }
    if stats.dexterity == 7 { TruncDiv2Unique(-3, -1); }
  }

  /** More dexterity never gives a lower modifier. */
  lemma DexterityModifierMonotone(s1: CharacterStats, s2: CharacterStats)
    requires s1.dexterity <= s2.dexterity
    ensures DexterityModifier(s1) <= DexterityModifier(s2)
  {
    TruncDiv2Monotone(s1.dexterity - 10, s2.dexterity - 10);
  }

  /**
   * For an `i32` dexterity, `self.dexterity - 10` stays an `i32` exactly from
   * `i32::MIN + 10` up, and then the modifier is an `i32` too.
   */
  lemma DexterityModifierInRange(stats: CharacterStats)
    requires IsI32(stats.dexterity)
    ensures IsI32(stats.dexterity - 10) <==> I32_MIN + 10 <= stats.dexterity
    ensures I32_MIN + 10 <= stats.dexterity ==> IsI32(DexterityModifier(stats))
  {
  }

  /** The command-side helper agrees with the model's `get_modifier("dex")` for the same scores. */
  lemma DexterityModifierAgreesWithGetModifier(stats: CharacterStats, bonus: int)
    ensures DexterityModifier(stats) == Models.GetModifier(
      Models.CharacterStats(stats.strength, stats.dexterity, stats.constitution,
                            stats.intelligence, stats.wisdom, stats.charisma, bonus), "dex")
  {
    Models.NamesDenoteTheirAbility(Models.Dexterity);
  }
}
