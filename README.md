# Tavern core in Dafny

Tavern is a desktop tabletop role-playing tool. A Rust back end keeps campaigns, characters, maps and assets in SQLite. A React front end draws the game board and lets players create character tokens.

This project models the parts of Tavern that decide what is stored and what is shown:

- **Rules data** (`models.dfy`). The game records and their serde-tagged enumerations, with the derived defaults. It also covers `CharacterStats::get_modifier` with its stat-name matching, the saving throw, the coin exchange rates of `Currency::total_in_copper`, and `TokenSize::grid_squares`.
- **Dexterity modifier** (`commands.dfy`). The `dexterity_modifier` helper of the command layer.
- **Database** (`database.dfy`). `DatabaseManager` as a class over four tables, each held as a map from id to record. Every query of the source is a method: inserts, the ordered listings, lookups, partial updates, cascading deletes and the token edits on a stored map. The listing queries are specified by `Ordering.SelectSorted`: the matching records, each once, in the order of SQLite's BINARY collation (`ordering.dfy`).
- **Game board** (`game_board.dfy`). The pure updaters `GameBoard.tsx` passes to `setTokens`, such as grid snapping, hit testing, moving, deleting, toggling, renaming and recolouring. It also covers the screen/canvas coordinate mapping and the board layout. The component's state is the class `GameBoard.Board`, whose methods are the event handlers.
- **Token creator** (`token_creator.dfy`). The character form: the proficiency bonus, the floored ability modifier, stat edits, and the request the form submits.

Rust's `i32` division truncates toward zero and JavaScript's `Math.floor` floors. Both are written out: `RustInt.TruncDiv` is the first and Dafny's Euclidean `/` by a positive divisor is the second. `TokenCreator.CalculateModifierVersusRust` proves where the two modifiers disagree. Identifiers, timestamps and random choices are parameters of the operations that use them.

## Model

| member | source | states |
|---|---|---|
| RustInt.TruncDiv | Tavern/src-tauri/src/database/models.rs:180 | Rust's `/` by a positive divisor: the remainder is smaller than the divisor and has the sign of the dividend |
| RustInt.TruncDiv2VersusFloor | Tavern/src-tauri/src/database/models.rs:180 | halving with truncation differs from flooring by one exactly for negative odd numbers |
| RustInt.TruncDiv2Monotone | Tavern/src-tauri/src/database/models.rs:180 | truncating halving never decreases as its argument grows |
| Sequences.Filter | Tavern/src-tauri/src/database/mod.rs:671 | `retain` and `Array.filter` keep exactly the accepted elements and never lengthen the list |
| Sequences.FilterConcat | Tavern/src-tauri/src/database/mod.rs:671 | filtering keeps the relative order: it distributes over concatenation |
| Sequences.FilterIdempotent | Tavern/src/components/Canvas/GameBoard.tsx:672 | filtering twice with the same predicate is filtering once |
| Sequences.Leading | Tavern/src/components/Canvas/GameBoard.tsx:410 | the length of the run of dropped elements at the front, which stops at the first kept element |
| Sequences.Trailing | Tavern/src/components/Canvas/GameBoard.tsx:410 | the length of the run of dropped elements at the back, which stops at the last kept element |
| Sequences.Strip | Tavern/src/components/Canvas/GameBoard.tsx:410 | the slice between the dropped runs at both ends, which starts and ends with kept elements; empty exactly when every element is dropped |
| Sequences.StripIdempotent | Tavern/src/components/Canvas/GameBoard.tsx:410-412 | stripping a stripped list changes nothing |
| Sequences.FirstIndex | Tavern/src-tauri/src/database/mod.rs:660 | `iter().find` / `Array.find`: no index when nothing matches, otherwise the first matching index |
| Ordering.LexLeTotalPreorder | Tavern/src-tauri/src/database/mod.rs:261 | SQLite's BINARY collation (`ORDER BY name ASC`) orders strings totally and transitively |
| Ordering.LaterTotalPreorder | Tavern/src-tauri/src/database/mod.rs:80 | `ORDER BY updated_at DESC` is a total preorder on timestamps |
| Ordering.InsertSorted | Tavern/src-tauri/src/database/mod.rs:261 | inserting a row at its place keeps a sorted listing sorted |
| Ordering.SelectSorted | Tavern/src-tauri/src/database/mod.rs:253-301 | a `SELECT ... WHERE ... ORDER BY` over a table: exactly the matching records, each once, sorted by the key (ties in any order) |
| Models.GameSystem.FromTag | Tavern/src-tauri/src/database/models.rs:34-42 | decoding a string gives a `GameSystem` whose serde tag it is, and nothing when no variant has that tag |
| Models.GameSystem.TagRoundTrip | Tavern/src-tauri/src/database/models.rs:34-42 | decoding a `GameSystem` variant's tag gives that variant back, so its tags are pairwise distinct |
| Models.AdvantageMode.FromTag | Tavern/src-tauri/src/database/models.rs:75-83 | decoding a string gives a `AdvantageMode` whose serde tag it is, and nothing when no variant has that tag |
| Models.AdvantageMode.TagRoundTrip | Tavern/src-tauri/src/database/models.rs:75-83 | decoding a `AdvantageMode` variant's tag gives that variant back, so its tags are pairwise distinct |
| Models.CriticalHitRules.FromTag | Tavern/src-tauri/src/database/models.rs:91-99 | decoding a string gives a `CriticalHitRules` whose serde tag it is, and nothing when no variant has that tag |
| Models.CriticalHitRules.TagRoundTrip | Tavern/src-tauri/src/database/models.rs:91-99 | decoding a `CriticalHitRules` variant's tag gives that variant back, so its tags are pairwise distinct |
| Models.InitiativeType.FromTag | Tavern/src-tauri/src/database/models.rs:115-123 | decoding a string gives a `InitiativeType` whose serde tag it is, and nothing when no variant has that tag |
| Models.InitiativeType.TagRoundTrip | Tavern/src-tauri/src/database/models.rs:115-123 | decoding a `InitiativeType` variant's tag gives that variant back, so its tags are pairwise distinct |
| Models.SkillProficiency.FromTag | Tavern/src-tauri/src/database/models.rs:236-244 | decoding a string gives a `SkillProficiency` whose serde tag it is, and nothing when no variant has that tag |
| Models.SkillProficiency.TagRoundTrip | Tavern/src-tauri/src/database/models.rs:236-244 | decoding a `SkillProficiency` variant's tag gives that variant back, so its tags are pairwise distinct |
| Models.ItemRarity.FromTag | Tavern/src-tauri/src/database/models.rs:272-286 | decoding a string gives a `ItemRarity` whose serde tag it is, and nothing when no variant has that tag |
| Models.ItemRarity.TagRoundTrip | Tavern/src-tauri/src/database/models.rs:272-286 | decoding a `ItemRarity` variant's tag gives that variant back, so its tags are pairwise distinct |
| Models.ItemType.FromTag | Tavern/src-tauri/src/database/models.rs:288-300 | decoding a string gives a `ItemType` whose serde tag it is, and nothing when no variant has that tag |
| Models.ItemType.TagRoundTrip | Tavern/src-tauri/src/database/models.rs:288-300 | decoding a `ItemType` variant's tag gives that variant back, so its tags are pairwise distinct |
| Models.DamageType.FromTag | Tavern/src-tauri/src/database/models.rs:313-341 | decoding a string gives a `DamageType` whose serde tag it is, and nothing when no variant has that tag |
| Models.DamageType.TagRoundTrip | Tavern/src-tauri/src/database/models.rs:313-341 | decoding a `DamageType` variant's tag gives that variant back, so its tags are pairwise distinct |
| Models.WeaponProperty.FromTag | Tavern/src-tauri/src/database/models.rs:343-365 | decoding a string gives a `WeaponProperty` whose serde tag it is, and nothing when no variant has that tag |
| Models.WeaponProperty.TagRoundTrip | Tavern/src-tauri/src/database/models.rs:343-365 | decoding a `WeaponProperty` variant's tag gives that variant back, so its tags are pairwise distinct |
| Models.ArmorType.FromTag | Tavern/src-tauri/src/database/models.rs:383-393 | decoding a string gives a `ArmorType` whose serde tag it is, and nothing when no variant has that tag |
| Models.ArmorType.TagRoundTrip | Tavern/src-tauri/src/database/models.rs:383-393 | decoding a `ArmorType` variant's tag gives that variant back, so its tags are pairwise distinct |
| Models.SpellSchool.FromTag | Tavern/src-tauri/src/database/models.rs:430-448 | decoding a string gives a `SpellSchool` whose serde tag it is, and nothing when no variant has that tag |
| Models.SpellSchool.TagRoundTrip | Tavern/src-tauri/src/database/models.rs:430-448 | decoding a `SpellSchool` variant's tag gives that variant back, so its tags are pairwise distinct |
| Models.FeatureSource.FromTag | Tavern/src-tauri/src/database/models.rs:480-492 | decoding a string gives a `FeatureSource` whose serde tag it is, and nothing when no variant has that tag |
| Models.FeatureSource.TagRoundTrip | Tavern/src-tauri/src/database/models.rs:480-492 | decoding a `FeatureSource` variant's tag gives that variant back, so its tags are pairwise distinct |
| Models.RechargeType.FromTag | Tavern/src-tauri/src/database/models.rs:501-511 | decoding a string gives a `RechargeType` whose serde tag it is, and nothing when no variant has that tag |
| Models.RechargeType.TagRoundTrip | Tavern/src-tauri/src/database/models.rs:501-511 | decoding a `RechargeType` variant's tag gives that variant back, so its tags are pairwise distinct |
| Models.TokenSize.FromTag | Tavern/src-tauri/src/database/models.rs:554-568 | decoding a string gives a `TokenSize` whose serde tag it is, and nothing when no variant has that tag |
| Models.TokenSize.TagRoundTrip | Tavern/src-tauri/src/database/models.rs:554-568 | decoding a `TokenSize` variant's tag gives that variant back, so its tags are pairwise distinct |
| Models.RollType.FromTag | Tavern/src-tauri/src/database/models.rs:696-706 | decoding a string gives a `RollType` whose serde tag it is, and nothing when no variant has that tag |
| Models.RollType.TagRoundTrip | Tavern/src-tauri/src/database/models.rs:696-706 | decoding a `RollType` variant's tag gives that variant back, so its tags are pairwise distinct |
| Models.MessageType.FromTag | Tavern/src-tauri/src/database/models.rs:731-745 | decoding a string gives a `MessageType` whose serde tag it is, and nothing when no variant has that tag |
| Models.MessageType.TagRoundTrip | Tavern/src-tauri/src/database/models.rs:731-745 | decoding a `MessageType` variant's tag gives that variant back, so its tags are pairwise distinct |
| Models.PlayerRole.FromTag | Tavern/src-tauri/src/database/models.rs:764-772 | decoding a string gives a `PlayerRole` whose serde tag it is, and nothing when no variant has that tag |
| Models.PlayerRole.TagRoundTrip | Tavern/src-tauri/src/database/models.rs:764-772 | decoding a `PlayerRole` variant's tag gives that variant back, so its tags are pairwise distinct |
| Models.AssetType.FromTag | Tavern/src-tauri/src/database/models.rs:791-805 | decoding a string gives a `AssetType` whose serde tag it is, and nothing when no variant has that tag |
| Models.AssetType.TagRoundTrip | Tavern/src-tauri/src/database/models.rs:791-805 | decoding a `AssetType` variant's tag gives that variant back, so its tags are pairwise distinct |
| Models.GameSystem.Default | Tavern/src-tauri/src/database/models.rs:44-48 | the default game system is `DnD5e` (tag "dnd5e") |
| Models.AdvantageMode.Default | Tavern/src-tauri/src/database/models.rs:85-89 | the default advantage mode is `Manual` |
| Models.CriticalHitRules.Default | Tavern/src-tauri/src/database/models.rs:101-105 | the default critical-hit rule is `Standard` |
| Models.InitiativeType.Default | Tavern/src-tauri/src/database/models.rs:125-129 | the default initiative type is `Individual` |
| Models.SkillProficiency.Default | Tavern/src-tauri/src/database/models.rs:246-250 | the default skill proficiency is `None` |
| Models.AreaShapeTagsDistinct | Tavern/src-tauri/src/database/models.rs:597-605 | the three revealed-area shapes carry distinct serde variant names |
| Models.DefaultCampaignSettings | Tavern/src-tauri/src/database/models.rs:25-32 | the derived default settings: default enums, no house rules, every flag off, action-surge limit 0 |
| Models.DefaultCombatStats | Tavern/src-tauri/src/database/models.rs:193-204 | the derived default combat stats are all zero with no conditions |
| Models.DefaultSkills | Tavern/src-tauri/src/database/models.rs:214-234 | every one of the eighteen skills defaults to `SkillProficiency::None` |
| Models.DefaultEquipment | Tavern/src-tauri/src/database/models.rs:252-258 | default equipment is empty with an empty purse |
| Models.ShortNameIsPrefix | Tavern/src-tauri/src/database/models.rs:172-177 | each accepted abbreviation is the first three letters of the full ability name |
| Models.ToLower | Tavern/src-tauri/src/database/models.rs:171 | `to_lowercase` on the stat name: same length, each character lowered |
| Models.ToLowerIdempotent | Tavern/src-tauri/src/database/models.rs:171 | lowering a lowered name changes nothing |
| Models.AbilityOf | Tavern/src-tauri/src/database/models.rs:171-178 | a lower-case name denotes an ability exactly when it is its full name or its three-letter abbreviation |
| Models.NamesDenoteTheirAbility | Tavern/src-tauri/src/database/models.rs:172-177 | both spellings of every ability, in any case, select that ability |
| Models.GetModifier | Tavern/src-tauri/src/database/models.rs:170-181 | `get_modifier`: 0 for an unknown stat name, otherwise (score - 10) / 2 truncated toward zero |
| Models.GetModifierExamples | Tavern/src-tauri/src/database/models.rs:170-181 | strength 9 gives 0, 8 gives -1 (also as "STR"), charisma 20 gives 5, dexterity 1 gives -4, "luck" gives 0 |
| Models.GetModifierIgnoresCase | Tavern/src-tauri/src/database/models.rs:171 | the stat name is matched without regard to case |
| Models.GetModifierAbbreviation | Tavern/src-tauri/src/database/models.rs:172-177 | full name and abbreviation give the same modifier |
| Models.GetModifierMonotone | Tavern/src-tauri/src/database/models.rs:180 | a higher score never gives a lower modifier |
| Models.GetModifierInRange | Tavern/src-tauri/src/database/models.rs:180 | for a score no lower than `i32::MIN + 10` the modifier is an i32 |
| Models.GetSavingThrow | Tavern/src-tauri/src/database/models.rs:183-190 | the modifier plus the proficiency bonus when proficient, the bare modifier otherwise |
| Models.GetSavingThrowInRange | Tavern/src-tauri/src/database/models.rs:183-190 | with scores from `i32::MIN + 10` up and a bonus within 2^30 either way, the saving throw is an i32 |
| Models.GetSavingThrowCanOverflow | Tavern/src-tauri/src/database/models.rs:186 | dexterity 20 with bonus `i32::MAX` already overflows `modifier + proficiency_bonus` |
| Models.SavingThrowProficiency | Tavern/src-tauri/src/database/models.rs:183-190 | proficiency adds exactly the proficiency bonus; an unknown stat saves at 0 without it |
| Models.TotalInCopperNonNegative | Tavern/src-tauri/src/database/models.rs:405-407 | `total_in_copper` is `Models.TotalInCopper`, the i32 sum of the coins at their rates in copper: a purse of non-negative coins is worth at least its copper and its platinum, never less than 0 |
| Models.TotalInCopperMonotone | Tavern/src-tauri/src/database/models.rs:405-407 | adding coins of any kind never lowers the total |
| Models.TotalInCopperExchange | Tavern/src-tauri/src/database/models.rs:405-407 | the rates `Models.TotalInCopper` applies: 10 cp = 1 sp, 5 sp = 1 ep, 2 ep = 1 gp, 10 gp = 1 pp |
| Models.TotalInCopperFitsI32 | Tavern/src-tauri/src/database/models.rs:405-407 | with at most 100000 of each coin the i32 sum cannot overflow |
| Models.TotalInCopperCanOverflow | Tavern/src-tauri/src/database/models.rs:405-407 | 2147484 platinum already exceeds `i32::MAX` copper |
| Models.GridSquares | Tavern/src-tauri/src/database/models.rs:570-581 | `grid_squares` is a perfect square, 1 for tiny to medium |
| Models.GridSquaresMonotone | Tavern/src-tauri/src/database/models.rs:570-581 | a larger size never covers fewer squares |
| Commands.DexterityModifier | Tavern/src-tauri/src/commands.rs:458-462 | `dexterity_modifier`: (dexterity - 10) / 2 truncated toward zero |
| Commands.DexterityModifierExamples | Tavern/src-tauri/src/commands.rs:460 | dexterity 9, 10 and 11 give 0; 8 and 7 give -1 |
| Commands.DexterityModifierMonotone | Tavern/src-tauri/src/commands.rs:459-461 | the modifier never decreases as dexterity grows |
| Commands.DexterityModifierInRange | Tavern/src-tauri/src/commands.rs:459-461 | for an i32 dexterity, `dexterity - 10` is an i32 exactly from `i32::MIN + 10` up, and then so is the modifier |
| Commands.DexterityModifierAgreesWithGetModifier | Tavern/src-tauri/src/commands.rs:459-461 | it equals `get_modifier("dex")` on the same score |
| TokenCreator.DefaultStats | Tavern/src/components/Character/TokenCreator.tsx:31-38 | the form starts with 10 in every score |
| TokenCreator.CeilQuarter | Tavern/src/components/Character/TokenCreator.tsx:42 | `Math.ceil(level / 4)` is the least multiple-of-four quotient covering the level |
| TokenCreator.ProficiencyBonus | Tavern/src/components/Character/TokenCreator.tsx:41-43 | `calculateProficiencyBonus`: one more than the number of started four-level tiers |
| TokenCreator.ProficiencyBonusTable | Tavern/src/components/Character/TokenCreator.tsx:41-43 | levels 1-4 give 2, 5-8 give 3, 9-12 give 4, 13-16 give 5, 17-20 give 6 |
| TokenCreator.ProficiencyBonusSteps | Tavern/src/components/Character/TokenCreator.tsx:41-43 | the bonus is monotone in level and rises by at most 1 per level |
| TokenCreator.CalculateModifier | Tavern/src/components/Character/TokenCreator.tsx:46-48 | `calculateModifier`: (score - 10) / 2 rounded down |
| TokenCreator.CalculateModifierExamples | Tavern/src/components/Character/TokenCreator.tsx:46-48 | 10 and 11 give 0, 9 and 8 give -1, 20 gives 5, 1 gives -5; Rust gives 0 for 9 |
| TokenCreator.CalculateModifierVersusRust | Tavern/src/components/Character/TokenCreator.tsx:46-48 | agrees with the truncating Rust modifier except for odd scores below 10, where it is one lower |
| TokenCreator.StatChange | Tavern/src/components/Character/TokenCreator.tsx:61-63 | `handleStatChange`: the named score takes the value, the other five are unchanged |
| TokenCreator.StatChangeLaws | Tavern/src/components/Character/TokenCreator.tsx:61-63 | writing a score's own value changes nothing; the last write to a score wins |
| TokenCreator.CharacterData | Tavern/src/components/Character/TokenCreator.tsx:71-90 | the request: name as player name, "Folk Hero", not an NPC, speed 30, bonus from the level, hit points 8 + con modifier, armour class 10 + dex modifier, initiative the dex modifier |
| TokenCreator.CharacterDataBounds | Tavern/src/components/Character/TokenCreator.tsx:71-90 | for scores 1-20 and levels 1-20: bonus 2-6, hit points 3-13, armour class 5-15, initiative -5 to 5 |
| TokenCreator.DefaultCharacterData | Tavern/src/components/Character/TokenCreator.tsx:71-90 | with the default scores: 8 hit points, armour class 10, initiative 0 |
| Database.DeleteWhere | Tavern/src-tauri/src/database/mod.rs:179-198 | a `DELETE ... WHERE` keeps exactly the records it does not match, each unchanged |
| Database.DeleteWhereLaws | Tavern/src-tauri/src/database/mod.rs:181-191 | deleting keeps every record under its id, and repeating the delete changes nothing |
| Database.GlobalAssetsVisibleEverywhere | Tavern/src-tauri/src/database/mod.rs:588-612 | the WHERE clauses of `get_assets` are `Database.VisibleIn`: every global asset is listed for each campaign, and a campaign's listing holds only its own and global assets |
| Database.MoveFirst | Tavern/src-tauri/src/database/mod.rs:658-666 | only the first token with the id takes the new position; with no such token the list is unchanged |
| Database.MoveFirstIdempotent | Tavern/src-tauri/src/database/mod.rs:658-666 | moving keeps every id in place, and moving twice to the same position is moving once |
| Database.Retain | Tavern/src-tauri/src/database/mod.rs:671 | the tokens kept are exactly those whose id differs |
| Database.RetainLaws | Tavern/src-tauri/src/database/mod.rs:671 | removing twice is removing once; removing an absent id changes nothing |
| Database.RetainConcat | Tavern/src-tauri/src/database/mod.rs:671 | removal keeps the survivors in order |
| Database.PatchCampaign | Tavern/src-tauri/src/database/mod.rs:135-176 | the intended update: present fields overwrite, absent ones keep, id, DM, creation time and activity stay, `updated_at` is now |
| Database.PatchCampaignIdempotent | Tavern/src-tauri/src/database/mod.rs:135-176 | applying the same campaign patch twice is applying it once |
| Database.PatchCharacter | Tavern/src-tauri/src/database/mod.rs:356-413 | the intended update: the six patchable fields overwrite when present, every other field stays, `updated_at` is now |
| Database.PatchCharacterIdempotent | Tavern/src-tauri/src/database/mod.rs:356-413 | applying the same character patch twice is applying it once |
| Database.Carried | Tavern/src-tauri/src/database/mod.rs:363-391 | the value a request carries for the column of each rank is the one for that column |
| Database.CarriedByEmptyRequest | Tavern/src-tauri/src/database/mod.rs:393-395 | a request carries no field value exactly when all six fields are absent |
| Database.ClausesOrdered | Tavern/src-tauri/src/database/mod.rs:360-398 | the bind values the `if let` blocks collect (`Database.Clauses`) are values of the request, in strictly increasing column order |
| Database.CarriedFrom | Tavern/src-tauri/src/database/mod.rs:363-391 | a value of the request is the one carried for its column's rank |
| Database.ClausesExact | Tavern/src-tauri/src/database/mod.rs:360-398 | with `updated_at`, the bind values are exactly the request's present values and the update time |
| Database.ClausesComplete | Tavern/src-tauri/src/database/mod.rs:360-398 | every value the request carries is among the collected bind values |
| Database.EmptyRequestNoClauses | Tavern/src-tauri/src/database/mod.rs:393-395 | no field value is collected exactly when the request is empty |
| Database.NoCarriedNoClauses | Tavern/src-tauri/src/database/mod.rs:360-398 | nothing is collected from columns the request leaves out |
| Database.Columns | Tavern/src-tauri/src/database/mod.rs:364-390 | the clause list names the column of each bind value, one for one |
| Database.PushPresent | Tavern/src-tauri/src/database/mod.rs:363-391 | one `if let Some` block: a present field appends its clause and its value together, an absent one adds nothing, so clauses and values stay paired and in column order |
| Database.CampaignCarried | Tavern/src-tauri/src/database/mod.rs:142-156 | the value a campaign request carries for the column of each rank is the one for that column |
| Database.CampaignCarriedFrom | Tavern/src-tauri/src/database/mod.rs:142-156 | a value of the campaign request is the one carried for its column's rank |
| Database.CampaignClausesOrdered | Tavern/src-tauri/src/database/mod.rs:139-156 | the values the `if let` blocks collect (`Database.CampaignClauses`) are values of the request, in strictly increasing column order |
| Database.CampaignClausesComplete | Tavern/src-tauri/src/database/mod.rs:139-156 | every value the campaign request carries is collected |
| Database.CampaignClausesExact | Tavern/src-tauri/src/database/mod.rs:139-156 | the collected values are exactly the present fields' values |
| Database.CampaignNoCarriedNoClauses | Tavern/src-tauri/src/database/mod.rs:139-156 | nothing is collected from fields the campaign request leaves out |
| Database.EmptyCampaignRequestNoClauses | Tavern/src-tauri/src/database/mod.rs:158-160 | no value is collected exactly when no field is present |
| Database.CampaignColumns | Tavern/src-tauri/src/database/mod.rs:142-156 | the clause list names the column of each collected value, one for one |
| Database.PushCampaignPresent | Tavern/src-tauri/src/database/mod.rs:142-156 | one `if let Some` block: a present field appends its clause and its value together, an absent one adds nothing |
| Database.NewCampaign | Tavern/src-tauri/src/database/mod.rs:49-72 | the inserted campaign: the request's fields, active, created and updated now |
| Database.NewCharacter | Tavern/src-tauri/src/database/mod.rs:205-250 | the inserted character: the request's fields, default combat stats, skills and equipment, no spells or features, empty notes, no avatar |
| Database.NewMap | Tavern/src-tauri/src/database/mod.rs:428-454 | the inserted map: the request's fields, no tokens and no fog of war |
| Database.DatabaseManager.constructor | Tavern/src-tauri/src/database/mod.rs:20-31 | a store opened on tables that hold each record under its own id |
| Database.DatabaseManager.CreateCampaign | Tavern/src-tauri/src/database/mod.rs:49-72 | the campaign table gains the new campaign under the fresh id, and the id is returned |
| Database.DatabaseManager.GetAllCampaigns | Tavern/src-tauri/src/database/mod.rs:75-102 | all campaigns, each once, most recently updated first |
| Database.DatabaseManager.GetCampaign | Tavern/src-tauri/src/database/mod.rs:105-132 | the stored campaign, or none when the id is unknown |
| Database.DatabaseManager.UpdateCampaign | Tavern/src-tauri/src/database/mod.rs:135-176 | as written: the values collected are the present fields in column order, the clauses are their columns then `updated_at`; no clause for an empty request; no table changes |
| Database.DatabaseManager.ApplyCampaignUpdate | Tavern/src-tauri/src/database/mod.rs:135-176 | as intended: a non-empty request patches the stored campaign; otherwise nothing changes |
| Database.DatabaseManager.DeleteCampaign | Tavern/src-tauri/src/database/mod.rs:179-198 | the campaign and its characters, maps and assets are gone; global assets and other campaigns' records stay |
| Database.DatabaseManager.CreateCharacter | Tavern/src-tauri/src/database/mod.rs:205-250 | the character table gains the new character under the fresh id |
| Database.DatabaseManager.GetCharacters | Tavern/src-tauri/src/database/mod.rs:253-301 | the campaign's characters, each once, ordered by name |
| Database.DatabaseManager.GetCharacter | Tavern/src-tauri/src/database/mod.rs:307-353 | the stored character, or none when the id is unknown |
| Database.DatabaseManager.UpdateCharacter | Tavern/src-tauri/src/database/mod.rs:356-413 | as written: clauses paired with the carried values in column order, `updated_at` last; none for an empty request; no table changes |
| Database.DatabaseManager.ApplyCharacterUpdate | Tavern/src-tauri/src/database/mod.rs:356-413 | as intended: a non-empty request patches the stored character; otherwise nothing changes |
| Database.DatabaseManager.DeleteCharacter | Tavern/src-tauri/src/database/mod.rs:416-421 | the character with the id is gone and no other record changes |
| Database.DatabaseManager.CreateMap | Tavern/src-tauri/src/database/mod.rs:428-454 | the map table gains the new map under the fresh id |
| Database.DatabaseManager.GetMaps | Tavern/src-tauri/src/database/mod.rs:457-495 | the campaign's maps, each once, ordered by name |
| Database.DatabaseManager.GetMap | Tavern/src-tauri/src/database/mod.rs:498-534 | the stored map, or none when the id is unknown |
| Database.DatabaseManager.SaveMapState | Tavern/src-tauri/src/database/mod.rs:537-553 | the map's tokens and fog of war are replaced and its `updated_at` is now; an unknown id changes nothing |
| Database.DatabaseManager.AddTokenToMap | Tavern/src-tauri/src/database/mod.rs:648-655 | the token is appended to the map and the map saved; an unknown map changes nothing |
| Database.DatabaseManager.UpdateTokenPosition | Tavern/src-tauri/src/database/mod.rs:658-666 | the first token with the id moves and the map is saved; a missing map or token changes nothing |
| Database.DatabaseManager.RemoveTokenFromMap | Tavern/src-tauri/src/database/mod.rs:669-675 | every token with the id is dropped, the rest kept in order, and the map saved |
| Database.DatabaseManager.ImportAsset | Tavern/src-tauri/src/database/mod.rs:560-585 | the asset table gains the asset, global when it has no campaign |
| Database.DatabaseManager.GetAssets | Tavern/src-tauri/src/database/mod.rs:588-633 | with a campaign: its assets and the global ones; without: only the global ones; each once, ordered by name |
| Database.DatabaseManager.DeleteAsset | Tavern/src-tauri/src/database/mod.rs:636-641 | the asset with the id is gone |
| Database.RenameCampaignExample | Tavern/src-tauri/src/database/mod.rs:168-174 | renaming a stored campaign to "New": as written the stored name stays "Old", as intended it becomes "New" |
| Database.LevelUpCharacterExample | Tavern/src-tauri/src/database/mod.rs:405-411 | levelling a stored character to 2: as written the stored level stays 1, as intended it becomes 2 |
| GameBoard.Cell | Tavern/src/components/Canvas/GameBoard.tsx:125 | `Math.floor(v / g)`: the cell k whose span k·g <= v < k·g + g holds v |
| GameBoard.CellUnique | Tavern/src/components/Canvas/GameBoard.tsx:125 | cells do not overlap, so the cell holding a point is unique |
| GameBoard.SnapCoord | Tavern/src/components/Canvas/GameBoard.tsx:125-126 | the snapped coordinate stays in the same cell and within half a cell of the input |
| GameBoard.SnapIsCellCentre | Tavern/src/components/Canvas/GameBoard.tsx:122-128 | the snapped coordinate is k·g + g/2, the centre of the cell k holding the input |
| GameBoard.SnapCoordIdempotent | Tavern/src/components/Canvas/GameBoard.tsx:122-128 | snapping a snapped coordinate leaves it in place |
| GameBoard.SnapCanLeaveBoard | Tavern/src/components/Canvas/GameBoard.tsx:193-204 | a clamped drag point can snap half a cell off the board: 800 snaps to 820 on a 40-pixel grid |
| GameBoard.SnapToGridPosition | Tavern/src/components/Canvas/GameBoard.tsx:122-128 | the identity when not snapping; otherwise each coordinate stays in its cell |
| GameBoard.SnapToGridPositionIdempotent | Tavern/src/components/Canvas/GameBoard.tsx:122-128 | snapping a position twice is snapping it once |
| GameBoard.SnapToken | Tavern/src/components/Canvas/GameBoard.tsx:132-137 | a snapping token moves to its cell centre and keeps every other field; a free token is unchanged |
| GameBoard.Reposition | Tavern/src/components/Canvas/GameBoard.tsx:131-139 | same length and order; every snapping token is centred, every free token unchanged, only positions change |
| GameBoard.RepositionIdempotent | Tavern/src/components/Canvas/GameBoard.tsx:131-139 | repositioning twice with the same grid is repositioning once |
| GameBoard.HitsIsDistance | Tavern/src/components/Canvas/GameBoard.tsx:146-147 | `GameBoard.Hits` decides `Math.sqrt(dx * dx + dy * dy) <= token.size` without the root: for the distance d >= 0 with d·d = dx·dx + dy·dy, the token is hit exactly when d <= size |
| GameBoard.CentreHits | Tavern/src/components/Canvas/GameBoard.tsx:146-147 | a token's own centre is on it |
| GameBoard.Ids | Tavern/src/components/Canvas/GameBoard.tsx:211-215 | the ids on the board in list order |
| GameBoard.MoveToken | Tavern/src/components/Canvas/GameBoard.tsx:211-215 | tokens with the dragged id move to the point; the others and every other field are unchanged |
| GameBoard.MoveTokenLaws | Tavern/src/components/Canvas/GameBoard.tsx:211-215 | moving twice to one point is moving once, and the ids stay in place |
| GameBoard.WithoutToken | Tavern/src/components/Canvas/GameBoard.tsx:671-673 | exactly the tokens without the id remain |
| GameBoard.WithoutTokenLaws | Tavern/src/components/Canvas/GameBoard.tsx:671-673 | deletion keeps the survivors in order, deleting an absent id changes nothing, deleting twice is deleting once |
| GameBoard.ToggleSnap | Tavern/src/components/Canvas/GameBoard.tsx:373-377 | the flag flips exactly for the tokens with the id; nothing else changes |
| GameBoard.ToggleSnapInvolutive | Tavern/src/components/Canvas/GameBoard.tsx:373-377 | toggling twice restores the list |
| GameBoard.SnapTokenWithId | Tavern/src/components/Canvas/GameBoard.tsx:381-387 | only tokens with the id that now snap are centred; the rest are unchanged |
| GameBoard.ToggleThenSnap | Tavern/src/components/Canvas/GameBoard.tsx:372-388 | the whole toggle: the target flips, is centred if it now snaps, stays put if not; other tokens unchanged |
| GameBoard.RenameToken | Tavern/src/components/Canvas/GameBoard.tsx:411-413 | tokens with the id take the name; nothing else changes |
| GameBoard.RecolorToken | Tavern/src/components/Canvas/GameBoard.tsx:437-439 | tokens with the id take the colour; nothing else changes |
| GameBoard.Trim | Tavern/src/components/Canvas/GameBoard.tsx:410 | `trim()`: the slice between the white space at both ends, which neither starts nor ends with white space; empty exactly when the input is all white space |
| GameBoard.TrimIdempotent | Tavern/src/components/Canvas/GameBoard.tsx:410-412 | trimming a trimmed name changes nothing |
| GameBoard.RenameTo | Tavern/src/components/Canvas/GameBoard.tsx:409-414 | a rename happens exactly when the prompt was not cancelled and the input is not blank, with the trimmed, non-empty name |
| GameBoard.NatToString | Tavern/src/components/Canvas/GameBoard.tsx:656 | the decimal digits of the count, with no leading zero |
| GameBoard.NatToStringValue | Tavern/src/components/Canvas/GameBoard.tsx:656 | reading the digits back gives the number |
| GameBoard.NatToStringInjective | Tavern/src/components/Canvas/GameBoard.tsx:656 | distinct counts give distinct token names |
| GameBoard.NewToken | Tavern/src/components/Canvas/GameBoard.tsx:650-665 | the new token: given id and colour, size 25, snapping, named "Token n+1", at the snapped (100, 100), which is a cell centre |
| GameBoard.NewTokenOnDefaultGrid | Tavern/src/components/Canvas/GameBoard.tsx:650-665 | on the initial 40-pixel grid the new token lands exactly at (100, 100) |
| GameBoard.ScreenToCanvas | Tavern/src/components/Canvas/GameBoard.tsx:106-111 | defined exactly for a nonzero scale, and mapping the result back gives the screen point |
| GameBoard.CanvasToScreen | Tavern/src/components/Canvas/GameBoard.tsx:114-119 | for a nonzero scale, converting back gives the canvas point |
| GameBoard.ScreenRoundTrip | Tavern/src/components/Canvas/GameBoard.tsx:106-119 | screen to canvas to screen is the identity for a nonzero scale |
| GameBoard.Layout | Tavern/src/components/Canvas/GameBoard.tsx:80-103 | the scale is at most 1 and is 1 or one of the two container-to-board ratios; the scaled board fits the padded container and is centred in it |
| GameBoard.LayoutFullSize | Tavern/src/components/Canvas/GameBoard.tsx:93 | a container at least as large as the padded board shows it unscaled |
| GameBoard.Clamp | Tavern/src/components/Canvas/GameBoard.tsx:193-194 | `Math.max(0, Math.min(hi, v))` lies in [0, hi] and is v when v already does |
| GameBoard.DragPoint | Tavern/src/components/Canvas/GameBoard.tsx:190-220 | the drag target before snapping always lies on the board |
| GameBoard.DragPointKeepsOffset | Tavern/src/components/Canvas/GameBoard.tsx:219-220 | on the board the token keeps the grab offset to the pointer |
| GameBoard.DragPointOffBoard | Tavern/src/components/Canvas/GameBoard.tsx:190-194 | off the board the token follows the nearest board point and the grab offset is dropped |
| GameBoard.Board.constructor | Tavern/src/components/Canvas/GameBoard.tsx:44-56 | the initial state: the three starting tokens, grid 40 shown, board 800 x 600, scale 1, no drag, nothing hovered |
| GameBoard.Board.CanvasPoint | Tavern/src/components/Canvas/GameBoard.tsx:106-111 | the canvas point under a screen point with the current layout, mapped back exactly |
| GameBoard.Topmost | Tavern/src/components/Canvas/GameBoard.tsx:142-152 | the index of the last token in the list under the point; none exactly when no token is under it |
| GameBoard.TopmostUnique | Tavern/src/components/Canvas/GameBoard.tsx:142-152 | any index that is the last token under the point is the one found |
| GameBoard.Board.TokenAt | Tavern/src/components/Canvas/GameBoard.tsx:142-152 | `getTokenAtPosition`: none exactly when no token is under the point; otherwise the token at the topmost index |
| GameBoard.Board.CleanupDrag | Tavern/src/components/Canvas/GameBoard.tsx:155-163 | the drag ends |
| GameBoard.Board.UpdateCanvasLayout | Tavern/src/components/Canvas/GameBoard.tsx:80-103 | the scale and offset become the layout for the container |
| GameBoard.Board.CanvasMouseMove | Tavern/src/components/Canvas/GameBoard.tsx:496-506 | when not dragging, the hovered token is the topmost token under the pointer, or none |
| GameBoard.Board.MouseDown | Tavern/src/components/Canvas/GameBoard.tsx:802-811 | a left click on a token starts dragging the topmost one, with the grab offset; otherwise nothing changes |
| GameBoard.Board.MouseMove | Tavern/src/components/Canvas/GameBoard.tsx:166-247 | while dragging, the first token with the id decides snapping and all tokens with the id move to the clamped point; a vanished token ends the drag |
| GameBoard.Board.MouseUp | Tavern/src/components/Canvas/GameBoard.tsx:250-256 | the drag ends |
| GameBoard.Board.MouseLeave | Tavern/src/components/Canvas/GameBoard.tsx:826-834 | nothing is hovered and any drag ends |
| GameBoard.Board.AddToken | Tavern/src/components/Canvas/GameBoard.tsx:650-668 | one new token is appended, named after the count before it |
| GameBoard.Board.DeleteToken | Tavern/src/components/Canvas/GameBoard.tsx:671-673 | the tokens become those without the id |
| GameBoard.Board.ToggleTokenSnap | Tavern/src/components/Canvas/GameBoard.tsx:372-391 | the toggle followed by the deferred re-snap |
| GameBoard.Board.RenameTokenTo | Tavern/src/components/Canvas/GameBoard.tsx:408-416 | renames with the trimmed input, or changes nothing when cancelled or blank |
| GameBoard.Board.ChangeTokenColor | Tavern/src/components/Canvas/GameBoard.tsx:433-441 | tokens with the id take the colour at the random index of `GameBoard.Palette`, the eight colours of line 434 |
| GameBoard.Board.GridSizeChange | Tavern/src/components/Canvas/GameBoard.tsx:676-684 | the grid size becomes the slider value (20-80) and the tokens are repositioned to it |
| GameBoard.Board.ShowGridChange | Tavern/src/components/Canvas/GameBoard.tsx:687-689 | the grid is shown exactly when the box is checked |
| GameBoard.Board.RepositionAllTokens | Tavern/src/components/Canvas/GameBoard.tsx:692-694 | the tokens are repositioned to the current grid |

## Left out

- Connection pool, migrations and error mapping (`DatabaseManager::new` opening SQLite, `sqlx` errors, `errors.rs`): the model starts from tables already open. A failed query is not modelled.
- JSON encoding of nested records (`serde_json::to_string` / `from_str`): records are stored as values. Encoding and decoding are taken to be inverse.
- `uuid::Uuid::new_v4()`, `Utc::now()`, `Date.now()` and `Math.random()`: passed in as `id`, `now` and `choice`. The `create_*` and `import_asset` methods require the id to be fresh in its table, as a v4 UUID practically is.
- `Currency::total_in_gold`: floating-point division is not modelled.
- `get_characters_for_campaign`: its body is `todo!()`.
- `main.rs` and the Tauri command wrappers in `commands.rs`: they forward to the database and carry no logic of their own. `commands.rs` is modelled only for `dexterity_modifier`.
- The map, token and dice commands commented out in `commands.rs` (lines 226-433), and peer synchronisation: that code never runs, and the networking module it calls is not part of this model. Only the tags of `PlayerRole` and `MessageType` are modelled from the peer types.
- Canvas drawing (`drawBoard`, grid lines, token rendering, the hover highlight), the DOM context menu and `prompt`, event-listener registration and `requestAnimationFrame` scheduling: rendering and browser plumbing. Callbacks run at once and refs equal state.
- GameBoard.Board.MouseMove: one animation frame is one call. Frames that the source coalesces or cancels are not modelled.
- GameBoard.ScreenToCanvas: JavaScript would divide by a zero scale and produce `Infinity`/`NaN`. The model returns none, and the pointer handlers then do nothing.
- JavaScript numbers on the board are exact reals: rounding of floating-point coordinates and the `isNaN` guards on the pointer position are not modelled.
- Models.GetModifier: the i32 subtraction is exact here. `Models.GetModifierInRange` gives the scores for which the source cannot overflow.
- Models.GetSavingThrow: the i32 sum `modifier + proficiency_bonus` is exact here. `Models.GetSavingThrowInRange` and `Models.GetSavingThrowCanOverflow` bound where it matches the source.
- Commands.DexterityModifier: the i32 subtraction `dexterity - 10` is exact here. `Commands.DexterityModifierInRange` gives the dexterities for which the source cannot overflow.
- Models.TotalInCopper: the i32 sum is exact here. `Models.TotalInCopperFitsI32` and `Models.TotalInCopperCanOverflow` bound where it matches the source.
- Models.ToLower: `to_lowercase` is modelled on ASCII letters only. The one non-ASCII character that lowers to an ASCII letter is the Kelvin sign, which lowers to `k`, and no stat name contains `k`. So the stat names matched are the same.
- The text of the `UPDATE` statement (`format!` joining the clauses with commas): the model keeps the list of clauses and values.
- TokenCreator form numbers are integers: the inputs are read with `Number()` of the field, which gives 0 for a cleared field, and a field being edited can hold a fractional or out-of-range value. Such values are not modelled. The displayed proficiency bonus and modifiers do see them; the form's min, max and step validation only keeps them from being submitted.
- GameBoard.Board.GridSizeChange: the deferred repositioning uses the new grid size, which is what the `setTimeout` after the state update observes.
- Pixi.js board components (`MapDisplay.tsx`, `TokenDisplay.tsx`, `TokenGrid.tsx`, `PixiViewport.tsx`, `PixiDisplay.tsx`), theme code, `Sidebar.tsx`, `DatabaseDisplay.tsx` and `App.tsx`: they are presentation or IPC calls only.

## Findings

| source | as written | input that shows it | evidently intended | confidence | as-written member | corrected member |
|---|---|---|---|---|---|---|
| Tavern/src-tauri/src/database/mod.rs:168-174 | the bind calls for the collected values and the campaign id are commented out, so every `?` is NULL and `WHERE id = NULL` updates no row | a stored campaign "Old" and a request setting `name` to "New"; the stored name stays "Old" | the present fields and `updated_at` are written to the campaign with that id | not executed | Database.DatabaseManager.UpdateCampaign, Database.RenameCampaignExample | Database.DatabaseManager.ApplyCampaignUpdate |
| Tavern/src-tauri/src/database/mod.rs:405-411 | the bind calls are commented out in the same way, so `update_character` changes no row | a stored level-1 character and a request setting `level` to 2; the stored level stays 1 | the present fields and `updated_at` are written to the character with that id | not executed | Database.DatabaseManager.UpdateCharacter, Database.LevelUpCharacterExample | Database.DatabaseManager.ApplyCharacterUpdate |
