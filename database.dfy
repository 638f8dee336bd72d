/**
 * The entity store: four tables of campaigns, characters, maps and assets,
 * each keyed by the record's id, and the operations `DatabaseManager` runs
 * on them. Every SQL statement becomes the change it makes to the tables;
 * the ids and the current time, which the store generates, are parameters.
 */
module Database {
  import opened Wrappers
  import opened Models
  import opened Ordering
  import opened Sequences

  // ---------------------------------------------------------------------------
  // Keys, filters and sort keys of the tables
  // ---------------------------------------------------------------------------

  function CampaignId(c: Campaign): string { c.id }
  function CharacterId(c: Character): string { c.id }
  function MapId(m: Map): string { m.id }
  function AssetId(a: Asset): string { a.id }

  function CharacterName(c: Character): string { c.name }
  function MapName(m: Map): string { m.name }
  function AssetName(a: Asset): string { a.name }
  function CampaignUpdatedAt(c: Campaign): int { c.updatedAt }

  /** Every record is stored under its own id. */
  ghost predicate KeyedBy<T>(table: map<string, T>, id: T -> string) {
    forall k :: k in table ==> id(table[k]) == k
  }

  /** Every row: the filter of a query without a `WHERE` clause. */
  predicate AnyCampaign(c: Campaign) { true }

  /** `WHERE campaign_id = c` on the characters table. */
  function CharacterOf(c: string): Character -> bool {
    (ch: Character) => ch.campaignId == c
  }

  /** `WHERE campaign_id = c` on the maps table. */
  function MapOf(c: string): Map -> bool {
    (m: Map) => m.campaignId == c
  }

  /** `WHERE campaign_id = c` on the assets table; a NULL campaign equals nothing. */
  function AssetOf(c: string): Asset -> bool {
    (a: Asset) => a.campaignId == Some(c)
  }

  /**
   * The filter of `get_assets`: with a campaign, `campaign_id = c OR
   * campaign_id IS NULL`; without one, `campaign_id IS NULL`.
   */
  function VisibleIn(campaign: Option<string>): Asset -> bool {
    match campaign
    case Some(c) => (a: Asset) => a.campaignId == Some(c) || a.campaignId.None?
    case None => (a: Asset) => a.campaignId.None?
  }

  /** `DELETE FROM table WHERE doomed`: the table without the rows `doomed` selects. */
  function DeleteWhere<T>(table: map<string, T>, doomed: T -> bool): (r: map<string, T>)
    ensures forall k :: k in r <==> k in table && !doomed(table[k])
    ensures forall k :: k in r ==> r[k] == table[k]
  {
    map k | k in table && !doomed(table[k]) :: table[k]
  }

  /** Deleting keeps the table keyed by id, and a second identical delete removes nothing more. */
  lemma DeleteWhereLaws<T>(table: map<string, T>, doomed: T -> bool, id: T -> string)
    ensures KeyedBy(table, id) ==> KeyedBy(DeleteWhere(table, doomed), id)
    ensures DeleteWhere(DeleteWhere(table, doomed), doomed) == DeleteWhere(table, doomed)
  {
  }

  /** Global assets are listed for every campaign, next to that campaign's own. */
  lemma GlobalAssetsVisibleEverywhere(assets: map<string, Asset>, c: string,
                                      inCampaign: seq<Asset>, global: seq<Asset>)
    requires IsListing(inCampaign, assets, VisibleIn(Some(c)), AssetId, AssetName, LexLe)
    requires IsListing(global, assets, VisibleIn(Option.None), AssetId, AssetName, LexLe)
    ensures forall a :: a in global ==> a in inCampaign
    ensures forall a :: a in inCampaign ==> a.campaignId == Some(c) || a in global
  {
    forall a | a in global ensures a in inCampaign {
      var i :| 0 <= i < |global| && global[i] == a;
      assert AssetId(a) in assets && assets[AssetId(a)] == a;
    }
    forall a | a in inCampaign ensures a.campaignId == Some(c) || a in global {
      var i :| 0 <= i < |inCampaign| && inCampaign[i] == a;
      assert AssetId(a) in assets && assets[AssetId(a)] == a;
    }
  }

  // ---------------------------------------------------------------------------
  // Token lists of a map
  // ---------------------------------------------------------------------------

  function TokenIdIs(id: string): Token -> bool {
    (t: Token) => t.id == id
  }

  function TokenIdIsNot(id: string): Token -> bool {
    (t: Token) => t.id != id
  }

  /**
   * The token list after `iter_mut().find(|t| t.id == id)` and assigning the
   * position: only the first token with that id moves, and only when there is one.
   */
  function MoveFirst(tokens: seq<Token>, id: string, position: Position): (r: seq<Token>)
    ensures |r| == |tokens|
    ensures match FirstIndex(tokens, TokenIdIs(id))
      case None => r == tokens
      case Some(i) => r[i] == tokens[i].(position := position)
                      && forall j :: 0 <= j < |r| && j != i ==> r[j] == tokens[j]
  {
    match FirstIndex(tokens, TokenIdIs(id))
    case None => tokens
    case Some(i) => tokens[i := tokens[i].(position := position)]
  }

  /** Moving keeps every token's id, so moving again to the same place changes nothing. */
  lemma MoveFirstIdempotent(tokens: seq<Token>, id: string, position: Position)
    ensures forall j :: 0 <= j < |tokens| ==> MoveFirst(tokens, id, position)[j].id == tokens[j].id
    ensures MoveFirst(MoveFirst(tokens, id, position), id, position) == MoveFirst(tokens, id, position)
  {
    var once := MoveFirst(tokens, id, position);
    forall j | 0 <= j < |tokens| ensures TokenIdIs(id)(once[j]) == TokenIdIs(id)(tokens[j]) {
    }
    assert FirstIndex(once, TokenIdIs(id)) == FirstIndex(tokens, TokenIdIs(id)) by {
      FirstIndexSameMatches(once, tokens, TokenIdIs(id));
    }
  }

  /** Two lists of the same length whose elements the predicate accepts alike have the same first match. */
  lemma {:induction false} FirstIndexSameMatches<T>(s: seq<T>, t: seq<T>, p: T -> bool)
    requires |s| == |t|
    requires forall j :: 0 <= j < |s| ==> p(s[j]) == p(t[j])
    ensures FirstIndex(s, p) == FirstIndex(t, p)
  {
    if s != [] && !p(s[0]) {
      FirstIndexSameMatches(s[1..], t[1..], p);
    }
  }

  /** `tokens.retain(|t| t.id != id)`: the tokens with another id, in their original order. */
  function Retain(tokens: seq<Token>, id: string): (r: seq<Token>)
    ensures forall t :: t in r <==> t in tokens && t.id != id
  {
    Filter(tokens, TokenIdIsNot(id))
  }

  /** Removing twice is removing once, and removing an id no token has changes nothing. */
  lemma RetainLaws(tokens: seq<Token>, id: string)
    ensures Retain(Retain(tokens, id), id) == Retain(tokens, id)
    ensures (forall j :: 0 <= j < |tokens| ==> tokens[j].id != id) ==> Retain(tokens, id) == tokens
  {
    FilterIdempotent(tokens, TokenIdIsNot(id));
    if forall j :: 0 <= j < |tokens| ==> tokens[j].id != id {
      FilterKeepsAll(tokens, TokenIdIsNot(id));
    }
  }

  /** Removing from a list joined from two parts removes from each part: the survivors keep their order. */
  lemma RetainConcat(s: seq<Token>, t: seq<Token>, id: string)
    ensures Retain(s + t, id) == Retain(s, id) + Retain(t, id)
  {
    FilterConcat(s, t, TokenIdIsNot(id));
  }

  // ---------------------------------------------------------------------------
  // Sparse updates
  // ---------------------------------------------------------------------------

  /**
   * A value `update_campaign` collects for binding, with the column it is for.
   * `update_campaign` collects borrowed values of three types and no value for
   * `updated_at`, while `update_character` collects owned strings ending with
   * the update time, so the two statements keep their own value types, and
   * their clause helpers (`CampaignColumns` and `Columns`, `CampaignClauses`
   * and `Clauses`) are written once for each.
   */
  datatype CampaignValue = NameValue(name: string) | DescriptionValue(description: string) | SettingsValue(settings: CampaignSettings)
  {
    function Column(): string {
      match this
      case NameValue(_) => "name = ?"
      case DescriptionValue(_) => "description = ?"
      case SettingsValue(_) => "settings = ?"
    }

    /** Where the column's clause goes in the statement. */
    function Rank(): nat {
      match this
      case NameValue(_) => 0
      case DescriptionValue(_) => 1
      case SettingsValue(_) => 2
    }

    /** The value is the one the request carries for its column. */
    predicate From(data: UpdateCampaignRequest) {
      match this
      case NameValue(n) => data.name == Some(n)
      case DescriptionValue(d) => data.description == Some(d)
      case SettingsValue(s) => data.settings == Some(s)
    }
  }

  predicate EmptyCampaignRequest(data: UpdateCampaignRequest) {
    data.name.None? && data.description.None? && data.settings.None?
  }

  /** The campaign with the present fields of the request written over it and `updated_at` set to `now`. */
  function PatchCampaign(c: Campaign, data: UpdateCampaignRequest, now: int): (r: Campaign)
    ensures r.id == c.id && r.dmName == c.dmName && r.createdAt == c.createdAt && r.isActive == c.isActive
    ensures r.name == data.name.GetOr(c.name)
    ensures r.description == (if data.description.Some? then data.description else c.description)
    ensures r.settings == data.settings.GetOr(c.settings)
    ensures r.updatedAt == now
  {
    c.(name := data.name.GetOr(c.name),
       description := if data.description.Some? then data.description else c.description,
       settings := data.settings.GetOr(c.settings),
       updatedAt := now)
  }

  /** Applying the same patch twice is applying it once. */
  lemma PatchCampaignIdempotent(c: Campaign, data: UpdateCampaignRequest, now: int)
    ensures PatchCampaign(PatchCampaign(c, data, now), data, now) == PatchCampaign(c, data, now)
  {
  }

  /** The value the request carries for the clause of rank `r`, if any: the present fields in column order. */
  function CampaignCarried(data: UpdateCampaignRequest, r: nat): (v: Option<CampaignValue>)
    ensures v.Some? ==> v.value.Rank() == r && v.value.From(data)
  {
    match r
    case 0 => if data.name.Some? then Some(NameValue(data.name.value)) else Option.None
    case 1 => if data.description.Some? then Some(DescriptionValue(data.description.value)) else Option.None
    case 2 => if data.settings.Some? then Some(SettingsValue(data.settings.value)) else Option.None
    case _ => Option.None
  }

  /** Every value of the request is the one it carries for its column's rank. */
  lemma CampaignCarriedFrom(data: UpdateCampaignRequest, v: CampaignValue)
    requires v.From(data)
    ensures CampaignCarried(data, v.Rank()) == Some(v)
  {
  }

  /** The values the request carries for the clauses of rank below `k`, in column order. */
  function CampaignClauses(data: UpdateCampaignRequest, k: nat): seq<CampaignValue> {
    if k == 0 then []
    else CampaignClauses(data, k - 1) + match CampaignCarried(data, k - 1) case Some(v) => [v] case None => []
  }

  /** The collected values are values of the request, in strictly increasing column order. */
  lemma {:induction false} CampaignClausesOrdered(data: UpdateCampaignRequest, k: nat)
    ensures forall i :: 0 <= i < |CampaignClauses(data, k)| ==>
      CampaignClauses(data, k)[i].From(data) && CampaignClauses(data, k)[i].Rank() < k
    ensures forall i, j :: 0 <= i < j < |CampaignClauses(data, k)| ==>
      CampaignClauses(data, k)[i].Rank() < CampaignClauses(data, k)[j].Rank()
  {
    if k > 0 {
      CampaignClausesOrdered(data, k - 1);
    }
  }

  /** Every value the request carries for a column of rank below `k` is collected. */
  lemma {:induction false} CampaignClausesComplete(data: UpdateCampaignRequest, k: nat)
    ensures forall r :: 0 <= r < k && CampaignCarried(data, r).Some? ==>
      CampaignCarried(data, r).value in CampaignClauses(data, k)
  {
    if k > 0 {
      CampaignClausesComplete(data, k - 1);
    }
  }

  /** The collected values are exactly the values of the request. */
  lemma CampaignClausesExact(data: UpdateCampaignRequest)
    ensures forall v :: v in CampaignClauses(data, 3) <==> v.From(data)
  {
    CampaignClausesOrdered(data, 3);
    CampaignClausesComplete(data, 3);
    forall v: CampaignValue | v.From(data)
      ensures v in CampaignClauses(data, 3)
    {
      CampaignCarriedFrom(data, v);
    }
  }

  /** Without a carried value below rank `k` nothing is collected below `k`. */
  lemma {:induction false} CampaignNoCarriedNoClauses(data: UpdateCampaignRequest, k: nat)
    requires forall r :: 0 <= r < k ==> CampaignCarried(data, r).None?
    ensures CampaignClauses(data, k) == []
  {
    if k > 0 {
      CampaignNoCarriedNoClauses(data, k - 1);
    }
  }

  /** A request collects a value exactly when it is not empty. */
  lemma EmptyCampaignRequestNoClauses(data: UpdateCampaignRequest)
    ensures CampaignClauses(data, 3) == [] <==> EmptyCampaignRequest(data)
  {
    CampaignClausesComplete(data, 3);
    if EmptyCampaignRequest(data) {
      CampaignNoCarriedNoClauses(data, 3);
    } else if data.name.Some? {
      assert CampaignCarried(data, 0).Some?;
    } else if data.description.Some? {
      assert CampaignCarried(data, 1).Some?;
    } else {
      assert CampaignCarried(data, 2).Some?;
    }
  }

  /** The `SET` clause of each collected value, in order. */
  function CampaignColumns(values: seq<CampaignValue>): (r: seq<string>)
    ensures |r| == |values| && forall i :: 0 <= i < |values| ==> r[i] == values[i].Column()
  {
    if values == [] then [] else CampaignColumns(values[..|values| - 1]) + [values[|values| - 1].Column()]
  }

  /**
   * One `if let Some(..) = &data.<field>` block of `update_campaign`: when
   * the request carries a value for the column of rank `k`, its clause is
   * pushed onto `query_parts` and the value onto `values`.
   */
  method PushCampaignPresent(queryParts: seq<string>, values: seq<CampaignValue>, field: Option<CampaignValue>,
                             ghost data: UpdateCampaignRequest, ghost k: nat)
    returns (parts: seq<string>, collected: seq<CampaignValue>)
    requires queryParts == CampaignColumns(values) && values == CampaignClauses(data, k)
    requires field == CampaignCarried(data, k)
    ensures parts == CampaignColumns(collected) && collected == CampaignClauses(data, k + 1)
  {
    if field.Some? {
      parts := queryParts + [field.value.Column()];
      collected := values + [field.value];
      assert collected[..|collected| - 1] == values;
    } else {
      parts, collected := queryParts, values;
    }
  }

  /**
   * An entry of `bind_values` in `update_character`, before it is turned into
   * text (`to_string`, JSON or RFC 3339), with the column it is for.
   */
  datatype CharacterValue =
    | NameText(name: string)
    | LevelText(level: int)
    | StatsJson(stats: CharacterStats)
    | CombatStatsJson(combatStats: CombatStats)
    | EquipmentJson(equipment: Equipment)
    | NotesText(notes: string)
    | UpdatedAtText(instant: int)
  {
    function Column(): string {
      match this
      case NameText(_) => "name = ?"
      case LevelText(_) => "level = ?"
      case StatsJson(_) => "stats = ?"
      case CombatStatsJson(_) => "combat_stats = ?"
      case EquipmentJson(_) => "equipment = ?"
      case NotesText(_) => "notes = ?"
      case UpdatedAtText(_) => "updated_at = ?"
    }

    /** Where the value's clause goes in the statement. */
    function Rank(): nat {
      match this
      case NameText(_) => 0
      case LevelText(_) => 1
      case StatsJson(_) => 2
      case CombatStatsJson(_) => 3
      case EquipmentJson(_) => 4
      case NotesText(_) => 5
      case UpdatedAtText(_) => 6
    }

    /** The value is the one the request carries for its column, or the update time. */
    predicate From(data: UpdateCharacterRequest, now: int) {
      match this
      case NameText(n) => data.name == Some(n)
      case LevelText(l) => data.level == Some(l)
      case StatsJson(s) => data.stats == Some(s)
      case CombatStatsJson(s) => data.combatStats == Some(s)
      case EquipmentJson(e) => data.equipment == Some(e)
      case NotesText(n) => data.notes == Some(n)
      case UpdatedAtText(t) => t == now
    }
  }

  predicate EmptyCharacterRequest(data: UpdateCharacterRequest) {
    data.name.None? && data.level.None? && data.stats.None? && data.combatStats.None?
    && data.equipment.None? && data.notes.None?
  }

  /** The character with the present fields of the request written over it and `updated_at` set to `now`. */
  function PatchCharacter(c: Character, data: UpdateCharacterRequest, now: int): (r: Character)
    ensures r.id == c.id && r.campaignId == c.campaignId && r.createdAt == c.createdAt
    ensures r.playerName == c.playerName && r.characterClass == c.characterClass && r.race == c.race
    ensures r.background == c.background && r.skills == c.skills && r.spells == c.spells
    ensures r.features == c.features && r.avatarUrl == c.avatarUrl && r.isNpc == c.isNpc
    ensures r.name == data.name.GetOr(c.name) && r.level == data.level.GetOr(c.level)
    ensures r.stats == data.stats.GetOr(c.stats) && r.combatStats == data.combatStats.GetOr(c.combatStats)
    ensures r.equipment == data.equipment.GetOr(c.equipment) && r.notes == data.notes.GetOr(c.notes)
    ensures r.updatedAt == now
  {
    c.(name := data.name.GetOr(c.name),
       level := data.level.GetOr(c.level),
       stats := data.stats.GetOr(c.stats),
       combatStats := data.combatStats.GetOr(c.combatStats),
       equipment := data.equipment.GetOr(c.equipment),
       notes := data.notes.GetOr(c.notes),
       updatedAt := now)
  }

  /** Applying the same patch twice is applying it once. */
  lemma PatchCharacterIdempotent(c: Character, data: UpdateCharacterRequest, now: int)
    ensures PatchCharacter(PatchCharacter(c, data, now), data, now) == PatchCharacter(c, data, now)
  {
  }

  /**
   * The bind value the request carries for the clause of rank `r`, if any:
   * the present fields in column order, then the update time.
   */
  function Carried(data: UpdateCharacterRequest, now: int, r: nat): (v: Option<CharacterValue>)
    ensures v.Some? ==> v.value.Rank() == r && v.value.From(data, now)
  {
    match r
    case 0 => if data.name.Some? then Some(NameText(data.name.value)) else Option.None
    case 1 => if data.level.Some? then Some(LevelText(data.level.value)) else Option.None
    case 2 => if data.stats.Some? then Some(StatsJson(data.stats.value)) else Option.None
    case 3 => if data.combatStats.Some? then Some(CombatStatsJson(data.combatStats.value)) else Option.None
    case 4 => if data.equipment.Some? then Some(EquipmentJson(data.equipment.value)) else Option.None
    case 5 => if data.notes.Some? then Some(NotesText(data.notes.value)) else Option.None
    case 6 => Some(UpdatedAtText(now))
    case _ => Option.None
  }

  /** A request with no field present carries nothing but the update time. */
  lemma CarriedByEmptyRequest(data: UpdateCharacterRequest, now: int)
    ensures EmptyCharacterRequest(data) <==> forall r :: 0 <= r < 6 ==> Carried(data, now, r).None?
  {
    if !EmptyCharacterRequest(data) {
      if data.name.Some? { assert Carried(data, now, 0).Some?; }
      else if data.level.Some? { assert Carried(data, now, 1).Some?; }
      else if data.stats.Some? { assert Carried(data, now, 2).Some?; }
      else if data.combatStats.Some? { assert Carried(data, now, 3).Some?; }
      else if data.equipment.Some? { assert Carried(data, now, 4).Some?; }
      else { assert Carried(data, now, 5).Some?; }
    }
  }

  /**
   * The bind values the request carries for the clauses of rank below `k`,
   * in column order.
   */
  function Clauses(data: UpdateCharacterRequest, now: int, k: nat): seq<CharacterValue> {
    if k == 0 then []
    else Clauses(data, now, k - 1) + match Carried(data, now, k - 1) case Some(v) => [v] case None => []
  }

  /** The collected bind values are values of the request, in strictly increasing column order. */
  lemma {:induction false} ClausesOrdered(data: UpdateCharacterRequest, now: int, k: nat)
    ensures forall i :: 0 <= i < |Clauses(data, now, k)| ==>
      Clauses(data, now, k)[i].From(data, now) && Clauses(data, now, k)[i].Rank() < k
    ensures forall i, j :: 0 <= i < j < |Clauses(data, now, k)| ==>
      Clauses(data, now, k)[i].Rank() < Clauses(data, now, k)[j].Rank()
  {
    if k > 0 {
      ClausesOrdered(data, now, k - 1);
    }
  }

  /** Every value of the request is the one it carries for its column's rank. */
  lemma CarriedFrom(data: UpdateCharacterRequest, now: int, v: CharacterValue)
    requires v.From(data, now)
    ensures Carried(data, now, v.Rank()) == Some(v)
  {
  }

  /** The bind values of a non-empty request are exactly its values and the update time. */
  lemma ClausesExact(data: UpdateCharacterRequest, now: int)
    ensures forall v :: v in Clauses(data, now, 7) <==> v.From(data, now)
  {
    ClausesOrdered(data, now, 7);
    ClausesComplete(data, now, 7);
    forall v: CharacterValue | v.From(data, now)
      ensures v in Clauses(data, now, 7)
    {
      CarriedFrom(data, now, v);
    }
  }

  /** Every value the request carries for a column of rank below `k` is among the clauses. */
  lemma {:induction false} ClausesComplete(data: UpdateCharacterRequest, now: int, k: nat)
    ensures forall r :: 0 <= r < k && Carried(data, now, r).Some? ==> Carried(data, now, r).value in Clauses(data, now, k)
  {
    if k > 0 {
      ClausesComplete(data, now, k - 1);
    }
  }

  /** A request carries a field value exactly when it is not empty. */
  lemma EmptyRequestNoClauses(data: UpdateCharacterRequest, now: int)
    ensures Clauses(data, now, 6) == [] <==> EmptyCharacterRequest(data)
  {
    CarriedByEmptyRequest(data, now);
    ClausesComplete(data, now, 6);
    if EmptyCharacterRequest(data) {
      NoCarriedNoClauses(data, now, 6);
    }
  }

  /** Without a carried value below rank `k` there is no clause below `k`. */
  lemma {:induction false} NoCarriedNoClauses(data: UpdateCharacterRequest, now: int, k: nat)
    requires forall r :: 0 <= r < k ==> Carried(data, now, r).None?
    ensures Clauses(data, now, k) == []
  {
    if k > 0 {
      NoCarriedNoClauses(data, now, k - 1);
    }
  }

  /** The `SET` clause of each bind value, in order. */
  function Columns(values: seq<CharacterValue>): (r: seq<string>)
    ensures |r| == |values| && forall i :: 0 <= i < |values| ==> r[i] == values[i].Column()
  {
    if values == [] then [] else Columns(values[..|values| - 1]) + [values[|values| - 1].Column()]
  }

  /** The statement's `SET` clauses are the columns of the bind values, one each. */
  predicate ClausesMatch(queryParts: seq<string>, bindValues: seq<CharacterValue>) {
    queryParts == Columns(bindValues)
  }

  /**
   * One `if let Some(..) = data.<field>` block of `update_character`: when
   * the request carries a value for the column of rank `k`, its clause is
   * pushed onto `query_parts` and the value onto `bind_values`.
   */
  method PushPresent(queryParts: seq<string>, bindValues: seq<CharacterValue>, field: Option<CharacterValue>,
                     ghost data: UpdateCharacterRequest, ghost now: int, ghost k: nat)
    returns (parts: seq<string>, values: seq<CharacterValue>)
    requires ClausesMatch(queryParts, bindValues) && bindValues == Clauses(data, now, k)
    requires field == Carried(data, now, k)
    ensures ClausesMatch(parts, values) && values == Clauses(data, now, k + 1)
  {
    if field.Some? {
      parts := queryParts + [field.value.Column()];
      values := bindValues + [field.value];
      assert values[..|values| - 1] == bindValues;
    } else {
      parts, values := queryParts, bindValues;
    }
  }

  // ---------------------------------------------------------------------------
  // New records
  // ---------------------------------------------------------------------------

  /** The row `create_campaign` inserts: active, created and updated at `now`. */
  function NewCampaign(data: CreateCampaignData, id: string, now: int): (r: Campaign)
    ensures r.id == id && r.name == data.name && r.description == data.description
    ensures r.dmName == data.dmName && r.settings == data.settings
    ensures r.createdAt == r.updatedAt == now && r.isActive
  {
    Campaign(id, data.name, data.description, data.dmName, data.settings, now, now, true)
  }

  /**
   * The row `create_character` inserts: the request's fields, default combat
   * stats, skills and equipment, no spells or features, empty notes and no avatar.
   */
  function NewCharacter(data: CreateCharacterRequest, id: string, now: int): (r: Character)
    ensures r.id == id && r.campaignId == data.campaignId && r.name == data.name
    ensures r.playerName == data.playerName && r.characterClass == data.characterClass
    ensures r.level == data.level && r.race == data.race && r.background == data.background
    ensures r.stats == data.stats && r.isNpc == data.isNpc
    ensures r.combatStats == DefaultCombatStats() && r.skills == DefaultSkills() && r.equipment == DefaultEquipment()
    ensures r.spells == [] && r.features == [] && r.notes == "" && r.avatarUrl.None?
    ensures r.createdAt == r.updatedAt == now
  {
    Character(id, data.campaignId, data.name, data.playerName, data.characterClass, data.level, data.race,
              data.background, data.stats, DefaultCombatStats(), DefaultSkills(), DefaultEquipment(), [], [],
              "", Option.None, data.isNpc, now, now)
  }

  /** The row `create_map` inserts: no tokens, no fog of war. */
  function NewMap(data: CreateMapRequest, id: string, now: int): (r: Map)
    ensures r.id == id && r.campaignId == data.campaignId && r.name == data.name
    ensures r.description == data.description && r.imageUrl == data.imageUrl
    ensures r.gridSize == data.gridSize && r.width == data.width && r.height == data.height
    ensures r.tokens == [] && r.fogOfWar.None?
    ensures r.createdAt == r.updatedAt == now
  {
    Map.Map(id, data.campaignId, data.name, data.description, data.imageUrl,
            data.gridSize, data.width, data.height, [], Option.None, now, now)
  }

  // ---------------------------------------------------------------------------
  // The store
  // ---------------------------------------------------------------------------

  class DatabaseManager {
    var campaigns: map<string, Campaign>
    var characters: map<string, Character>
    var maps: map<string, Map>
    var assets: map<string, Asset>

    /** Every table holds each record under its own id. */
    ghost predicate Valid()
      reads this
    {
      && KeyedBy(campaigns, CampaignId)
      && KeyedBy(characters, CharacterId)
      && KeyedBy(maps, MapId)
      && KeyedBy(assets, AssetId)
    }

    /** Opens a store whose tables hold the given records. */
    constructor (campaigns: map<string, Campaign>, characters: map<string, Character>,
                 maps: map<string, Map>, assets: map<string, Asset>)
      requires KeyedBy(campaigns, CampaignId) && KeyedBy(characters, CharacterId)
      requires KeyedBy(maps, MapId) && KeyedBy(assets, AssetId)
      ensures Valid()
      ensures this.campaigns == campaigns && this.characters == characters
      ensures this.maps == maps && this.assets == assets
    {
      this.campaigns := campaigns;
      this.characters := characters;
      this.maps := maps;
      this.assets := assets;
    }

    // -- Campaigns ------------------------------------------------------------

    /** `create_campaign`: stores the new campaign under a fresh id. */
    method CreateCampaign(data: CreateCampaignData, id: string, now: int) returns (r: string)
      requires Valid() && id !in campaigns
      modifies this`campaigns
      ensures Valid() && r == id
      ensures campaigns == old(campaigns)[id := NewCampaign(data, id, now)]
    {
      campaigns := campaigns[id := NewCampaign(data, id, now)];
      r := id;
    }

    /** `get_all_campaigns`: every campaign, most recently updated first. */
    method GetAllCampaigns() returns (rows: seq<Campaign>)
      requires Valid()
      ensures IsListing(rows, campaigns, AnyCampaign, CampaignId, CampaignUpdatedAt, Later)
    {
      LaterTotalPreorder();
      rows := SelectSorted(campaigns, AnyCampaign, CampaignId, CampaignUpdatedAt, Later);
    }

    /** `get_campaign`: the campaign with that id, if there is one. */
    method GetCampaign(id: string) returns (r: Option<Campaign>)
      ensures r.Some? <==> id in campaigns
      ensures r.Some? ==> r.value == campaigns[id]
    {
      r := if id in campaigns then Some(campaigns[id]) else Option.None;
    }

    /**
     * `update_campaign` as written: it collects the `SET` clauses and values
     * of the present fields and returns without a statement when there are
     * none. The bindings are commented out, so the statement it runs has
     * every parameter NULL and `WHERE id = NULL` selects no row: no table
     * changes, which is why this method modifies nothing.
     */
    method UpdateCampaign(campaignId: string, data: UpdateCampaignRequest, now: int)
      returns (queryParts: seq<string>, values: seq<CampaignValue>)
      ensures queryParts == [] <==> EmptyCampaignRequest(data)
      ensures values == CampaignClauses(data, 3)
      ensures queryParts == if EmptyCampaignRequest(data) then [] else CampaignColumns(values) + ["updated_at = ?"]
    {
      queryParts := [];
      values := [];
      ghost var k := 0;
      queryParts, values := PushCampaignPresent(queryParts, values,
        if data.name.Some? then Some(NameValue(data.name.value)) else Option.None, data, k);
      k := k + 1;
      queryParts, values := PushCampaignPresent(queryParts, values,
        if data.description.Some? then Some(DescriptionValue(data.description.value)) else Option.None, data, k);
      k := k + 1;
      queryParts, values := PushCampaignPresent(queryParts, values,
        if data.settings.Some? then Some(SettingsValue(data.settings.value)) else Option.None, data, k);
      EmptyCampaignRequestNoClauses(data);
      if queryParts == [] {
        return;
      }
      queryParts := queryParts + ["updated_at = ?"];
    }

    /**
     * `update_campaign` with its values, `now` and the id bound: the patch is
     * applied to the stored campaign, if there is one; an empty request
     * changes nothing.
     */
    method ApplyCampaignUpdate(campaignId: string, data: UpdateCampaignRequest, now: int)
      requires Valid()
      modifies this`campaigns
      ensures Valid()
      ensures campaigns == if campaignId in old(campaigns) && !EmptyCampaignRequest(data)
                           then old(campaigns)[campaignId := PatchCampaign(old(campaigns)[campaignId], data, now)]
                           else old(campaigns)
    {
      var queryParts, values := UpdateCampaign(campaignId, data, now);
      if queryParts == [] {
        return;
      }
      if campaignId in campaigns {
        campaigns := campaigns[campaignId := PatchCampaign(campaigns[campaignId], data, now)];
      }
    }

    /**
     * `delete_campaign`: deletes the campaign's characters, maps and assets,
     * then the campaign. Global assets and other campaigns' records stay.
     */
    method DeleteCampaign(campaignId: string)
      requires Valid()
      modifies this`campaigns, this`characters, this`maps, this`assets
      ensures Valid()
      ensures characters == DeleteWhere(old(characters), CharacterOf(campaignId))
      ensures maps == DeleteWhere(old(maps), MapOf(campaignId))
      ensures assets == DeleteWhere(old(assets), AssetOf(campaignId))
      ensures campaigns == old(campaigns) - {campaignId}
      ensures forall k :: k in characters ==> characters[k].campaignId != campaignId
      ensures forall k :: k in maps ==> maps[k].campaignId != campaignId
      ensures forall k :: k in assets ==> assets[k].campaignId != Some(campaignId)
      ensures forall k :: k in old(assets) && old(assets)[k].campaignId.None? ==> k in assets
    {
      characters := DeleteWhere(characters, CharacterOf(campaignId));
      maps := DeleteWhere(maps, MapOf(campaignId));
      assets := DeleteWhere(assets, AssetOf(campaignId));
      campaigns := campaigns - {campaignId};
    }

    // -- Characters -----------------------------------------------------------

    /** `create_character`: stores the new character under a fresh id. */
    method CreateCharacter(data: CreateCharacterRequest, id: string, now: int) returns (r: string)
      requires Valid() && id !in characters
      modifies this`characters
      ensures Valid() && r == id
      ensures characters == old(characters)[id := NewCharacter(data, id, now)]
    {
      characters := characters[id := NewCharacter(data, id, now)];
      r := id;
    }

    /** `get_characters`: the campaign's characters ordered by name. */
    method GetCharacters(campaignId: string) returns (rows: seq<Character>)
      requires Valid()
      ensures IsListing(rows, characters, CharacterOf(campaignId), CharacterId, CharacterName, LexLe)
    {
      LexLeTotalPreorder();
      rows := SelectSorted(characters, CharacterOf(campaignId), CharacterId, CharacterName, LexLe);
    }

    /** `get_character`: the character with that id, if there is one. */
    method GetCharacter(id: string) returns (r: Option<Character>)
      ensures r.Some? <==> id in characters
      ensures r.Some? ==> r.value == characters[id]
    {
      r := if id in characters then Some(characters[id]) else Option.None;
    }

    /**
     * `update_character` as written: it collects the `SET` clauses and the
     * bind values of the present fields, then `updated_at`, and returns
     * without a statement when no field is present. As in `update_campaign`,
     * nothing is bound, so the statement it runs selects no row and no table
     * changes.
     */
    method UpdateCharacter(characterId: string, data: UpdateCharacterRequest, now: int)
      returns (queryParts: seq<string>, bindValues: seq<CharacterValue>)
      ensures queryParts == [] <==> EmptyCharacterRequest(data)
      ensures ClausesMatch(queryParts, bindValues)
      ensures bindValues == if EmptyCharacterRequest(data) then [] else Clauses(data, now, 7)
    {
      queryParts := [];
      bindValues := [];
      ghost var k := 0;
      queryParts, bindValues := PushPresent(queryParts, bindValues,
        if data.name.Some? then Some(NameText(data.name.value)) else Option.None, data, now, k);
      k := k + 1;
      queryParts, bindValues := PushPresent(queryParts, bindValues,
        if data.level.Some? then Some(LevelText(data.level.value)) else Option.None, data, now, k);
      k := k + 1;
      queryParts, bindValues := PushPresent(queryParts, bindValues,
        if data.stats.Some? then Some(StatsJson(data.stats.value)) else Option.None, data, now, k);
      k := k + 1;
      queryParts, bindValues := PushPresent(queryParts, bindValues,
        if data.combatStats.Some? then Some(CombatStatsJson(data.combatStats.value)) else Option.None, data, now, k);
      k := k + 1;
      queryParts, bindValues := PushPresent(queryParts, bindValues,
        if data.equipment.Some? then Some(EquipmentJson(data.equipment.value)) else Option.None, data, now, k);
      k := k + 1;
      queryParts, bindValues := PushPresent(queryParts, bindValues,
        if data.notes.Some? then Some(NotesText(data.notes.value)) else Option.None, data, now, k);
      k := k + 1;
      EmptyRequestNoClauses(data, now);
      if queryParts == [] {
        return;
      }
      queryParts, bindValues := PushPresent(queryParts, bindValues, Some(UpdatedAtText(now)), data, now, k);
    }

    /**
     * `update_character` with its values and the id bound: the patch is
     * applied to the stored character, if there is one; an empty request
     * changes nothing.
     */
    method ApplyCharacterUpdate(characterId: string, data: UpdateCharacterRequest, now: int)
      requires Valid()
      modifies this`characters
      ensures Valid()
      ensures characters == if characterId in old(characters) && !EmptyCharacterRequest(data)
                            then old(characters)[characterId := PatchCharacter(old(characters)[characterId], data, now)]
                            else old(characters)
    {
      var queryParts, bindValues := UpdateCharacter(characterId, data, now);
      if queryParts == [] {
        return;
      }
      if characterId in characters {
        characters := characters[characterId := PatchCharacter(characters[characterId], data, now)];
      }
    }

    /** `delete_character`: removes the character with that id, if there is one. */
    method DeleteCharacter(id: string)
      requires Valid()
      modifies this`characters
      ensures Valid()
      ensures characters == old(characters) - {id}
    {
      characters := characters - {id};
    }

    // -- Maps -----------------------------------------------------------------

    /** `create_map`: stores the new map under a fresh id. */
    method CreateMap(data: CreateMapRequest, id: string, now: int) returns (r: string)
      requires Valid() && id !in maps
      modifies this`maps
      ensures Valid() && r == id
      ensures maps == old(maps)[id := NewMap(data, id, now)]
    {
      maps := maps[id := NewMap(data, id, now)];
      r := id;
    }

    /** `get_maps`: the campaign's maps ordered by name. */
    method GetMaps(campaignId: string) returns (rows: seq<Map>)
      requires Valid()
      ensures IsListing(rows, maps, MapOf(campaignId), MapId, MapName, LexLe)
    {
      LexLeTotalPreorder();
      rows := SelectSorted(maps, MapOf(campaignId), MapId, MapName, LexLe);
    }

    /** `get_map`: the map with that id, if there is one. */
    method GetMap(id: string) returns (r: Option<Map>)
      ensures r.Some? <==> id in maps
      ensures r.Some? ==> r.value == maps[id]
    {
      r := if id in maps then Some(maps[id]) else Option.None;
    }

    /**
     * `save_map_state`: replaces the map's tokens and fog of war and stamps
     * it with `now`; an unknown map id changes nothing.
     */
    method SaveMapState(mapId: string, tokens: seq<Token>, fogOfWar: Option<FogOfWar>, now: int)
      requires Valid()
      modifies this`maps
      ensures Valid()
      ensures maps == if mapId in old(maps)
                      then old(maps)[mapId := old(maps)[mapId].(tokens := tokens, fogOfWar := fogOfWar, updatedAt := now)]
                      else old(maps)
    {
      if mapId in maps {
        maps := maps[mapId := maps[mapId].(tokens := tokens, fogOfWar := fogOfWar, updatedAt := now)];
      }
    }

    // -- Tokens ---------------------------------------------------------------

    /**
     * `add_token_to_map`: appends the token to the map's list, without
     * checking for a token with the same id, and saves the map; an unknown
     * map id changes nothing.
     */
    method AddTokenToMap(mapId: string, token: Token, now: int)
      requires Valid()
      modifies this`maps
      ensures Valid()
      ensures maps == if mapId in old(maps)
                      then old(maps)[mapId := old(maps)[mapId].(tokens := old(maps)[mapId].tokens + [token], updatedAt := now)]
                      else old(maps)
    {
      var found := GetMap(mapId);
      if found.Some? {
        var map_ := found.value;
        var tokens := map_.tokens + [token];
        SaveMapState(mapId, tokens, map_.fogOfWar, now);
      }
    }

    /**
     * `update_token_position`: finds the first token with the id, sets its
     * position and saves the map; when the map or the token is missing,
     * nothing is saved.
     */
    method UpdateTokenPosition(mapId: string, tokenId: string, position: Position, now: int)
      requires Valid()
      modifies this`maps
      ensures Valid()
      ensures maps == if mapId in old(maps) && FirstIndex(old(maps)[mapId].tokens, TokenIdIs(tokenId)).Some?
                      then old(maps)[mapId := old(maps)[mapId].(tokens := MoveFirst(old(maps)[mapId].tokens, tokenId, position),
                                                                 updatedAt := now)]
                      else old(maps)
    {
      var found := GetMap(mapId);
      if found.Some? {
        var map_ := found.value;
        var tokens := map_.tokens;
        var i := 0;
        while i < |tokens| && tokens[i].id != tokenId
          invariant 0 <= i <= |tokens|
          invariant forall j :: 0 <= j < i ==> !TokenIdIs(tokenId)(tokens[j])
        {
          i := i + 1;
        }
        if i < |tokens| {
          assert FirstIndex(tokens, TokenIdIs(tokenId)) == Some(i) by {
            FirstIndexAt(tokens, TokenIdIs(tokenId), i);
          }
          tokens := tokens[i := tokens[i].(position := position)];
          SaveMapState(mapId, tokens, map_.fogOfWar, now);
        }
      }
    }

    /**
     * `remove_token_from_map`: drops every token with the id, keeping the
     * others in order, and saves the map even when nothing was dropped; an
     * unknown map id changes nothing.
     */
    method RemoveTokenFromMap(mapId: string, tokenId: string, now: int)
      requires Valid()
      modifies this`maps
      ensures Valid()
      ensures maps == if mapId in old(maps)
                      then old(maps)[mapId := old(maps)[mapId].(tokens := Retain(old(maps)[mapId].tokens, tokenId), updatedAt := now)]
                      else old(maps)
    {
      var found := GetMap(mapId);
      if found.Some? {
        var map_ := found.value;
        var tokens := map_.tokens;
        var kept: seq<Token> := [];
        var i := 0;
        while i < |tokens|
          invariant 0 <= i <= |tokens|
          invariant kept == Retain(tokens[..i], tokenId)
          invariant maps == old(maps)
        {
          RetainConcat(tokens[..i], [tokens[i]], tokenId);
          assert tokens[..i + 1] == tokens[..i] + [tokens[i]];
          if tokens[i].id != tokenId {
            kept := kept + [tokens[i]];
          }
          i := i + 1;
        }
        assert tokens[..i] == tokens;
        SaveMapState(mapId, kept, map_.fogOfWar, now);
      }
    }

    // -- Assets ---------------------------------------------------------------

    /** `import_asset`: stores a new asset, global when it has no campaign. */
    method ImportAsset(campaignId: Option<string>, name: string, filePath: string, assetType: AssetType,
                       fileSize: int, mimeType: string, tags: seq<string>, id: string, now: int) returns (r: string)
      requires Valid() && id !in assets
      modifies this`assets
      ensures Valid() && r == id
      ensures assets == old(assets)[id := Asset(id, campaignId, name, filePath, assetType, fileSize, mimeType, tags, now)]
    {
      assets := assets[id := Asset(id, campaignId, name, filePath, assetType, fileSize, mimeType, tags, now)];
      r := id;
    }

    /**
     * `get_assets`: with a campaign, its assets and the global ones; without,
     * only the global ones; ordered by name either way.
     */
    method GetAssets(campaignId: Option<string>) returns (rows: seq<Asset>)
      requires Valid()
      ensures IsListing(rows, assets, VisibleIn(campaignId), AssetId, AssetName, LexLe)
    {
      LexLeTotalPreorder();
      rows := SelectSorted(assets, VisibleIn(campaignId), AssetId, AssetName, LexLe);
    }

    /** `delete_asset`: removes the asset with that id, if there is one. */
    method DeleteAsset(id: string)
      requires Valid()
      modifies this`assets
      ensures Valid()
      ensures assets == old(assets) - {id}
    {
      assets := assets - {id};
    }
  }

  /** The index at which a search stops, having passed no match, is the first match. */
  lemma {:induction false} FirstIndexAt<T>(s: seq<T>, p: T -> bool, i: nat)
    requires i < |s| && p(s[i])
    requires forall j :: 0 <= j < i ==> !p(s[j])
    ensures FirstIndex(s, p) == Some(i)
  {
    if i > 0 {
      FirstIndexAt(s[1..], p, i - 1);
    }
  }

  // ---------------------------------------------------------------------------
  // The lost updates, on concrete stores
  // ---------------------------------------------------------------------------

  /**
   * Renaming a stored campaign: through `update_campaign` as written the
   * stored name stays "Old", while the update with its values bound stores "New".
   */
  method RenameCampaignExample() returns (asWritten: Option<Campaign>, intended: Option<Campaign>)
    ensures asWritten.Some? && asWritten.value.name == "Old"
    ensures intended.Some? && intended.value.name == "New" && intended.value.updatedAt == 2
  {
    var c := NewCampaign(CreateCampaignData("Old", Option.None, "DM", DefaultCampaignSettings()), "c1", 1);
    var request := UpdateCampaignRequest(Some("New"), Option.None, Option.None);
    var store := new DatabaseManager(map["c1" := c], map[], map[], map[]);
    var queryParts, values := store.UpdateCampaign("c1", request, 2);
    asWritten := store.GetCampaign("c1");
    var fixedStore := new DatabaseManager(map["c1" := c], map[], map[], map[]);
    fixedStore.ApplyCampaignUpdate("c1", request, 2);
    intended := fixedStore.GetCampaign("c1");
  }

  /**
   * Levelling up a stored character: through `update_character` as written
   * the stored level stays 1, while the update with its values bound stores 2.
   */
  method LevelUpCharacterExample() returns (asWritten: Option<Character>, intended: Option<Character>)
    ensures asWritten.Some? && asWritten.value.level == 1
    ensures intended.Some? && intended.value.level == 2 && intended.value.updatedAt == 2
  {
    var stats := CharacterStats(10, 10, 10, 10, 10, 10, 2);
    var c := NewCharacter(CreateCharacterRequest("c1", "Hero", Option.None, "Fighter", 1, "Human", "Soldier", stats, false), "h1", 1);
    var request := UpdateCharacterRequest(Option.None, Some(2), Option.None, Option.None, Option.None, Option.None);
    var store := new DatabaseManager(map[], map["h1" := c], map[], map[]);
    var queryParts, bindValues := store.UpdateCharacter("h1", request, 2);
    asWritten := store.GetCharacter("h1");
    var fixedStore := new DatabaseManager(map[], map["h1" := c], map[], map[]);
    fixedStore.ApplyCharacterUpdate("h1", request, 2);
    intended := fixedStore.GetCharacter("h1");
  }
}
