/** The per-table shaping rules of data.py: the `data = {...}` dict that each
    `load_*` builds from a normalised row, with the table it targets and the
    primary key it passes to `insert`. Each dict is written as data, a list of
    columns with the rule that computes each value, and evaluated in order as
    Python evaluates a dict display. The dicts of data.py never repeat a key,
    and `WellFormed` requires distinct names, so a record has exactly one
    entry per column. */
module Shaping {
  import opened Values
  import opened Coercion

  /** `ULTRA_BEASTS` */
  const UltraBeasts: set<int> := {793, 794, 795, 796, 797, 798, 799, 803, 804, 805, 806}

  /** `v in ULTRA_BEASTS`: only an integer can equal one of its members. */
  predicate IsUltraBeast(v: Value)
  {
    v.Int? && v.i in UltraBeasts
  }

  /** How one entry of a shaping dict obtains its value from the row. */
  datatype Rule =
    /** `row[key]` */
    | Required(key: string)
    /** `row.get(key)` */
    | Optional(key: string)
    /** `row.get(key, default)` */
    | OptionalOr(key: string, default: Value)
    /** `get_bool(row, key)` */
    | Flag(key: string)
    /** `get_str(row, key)` */
    | TextOf(key: string)
    /** a constant */
    | Literal(value: Value)
    /** `row[key] in ULTRA_BEASTS` */
    | UltraBeastOf(key: string)

  datatype Column = Column(name: string, rule: Rule)

  /** The tables the loaders fill. */
  datatype Table =
    | Languages
    | PokemonSpecies
    | PokemonSpeciesNames
    | PokemonSpeciesFlavorText
    | Pokemon
    | EvolutionTriggers
    | Items
    | MoveTargets
    | DamageClasses
    | Types
    | MoveEffects
    | Moves
    | PokemonEvolutions
    | PokemonTypes
    | PokemonForms
    | PokemonFormNames

  /** The SQL name of a table. */
  function TableName(t: Table): string
  {
    match t
    case Languages => "languages"
    case PokemonSpecies => "pokemon_species"
    case PokemonSpeciesNames => "pokemon_species_names"
    case PokemonSpeciesFlavorText => "pokemon_species_flavor_text"
    case Pokemon => "pokemon"
    case EvolutionTriggers => "evolution_triggers"
    case Items => "items"
    case MoveTargets => "move_targets"
    case DamageClasses => "damage_classes"
    case Types => "types"
    case MoveEffects => "move_effects"
    case Moves => "moves"
    case PokemonEvolutions => "pokemon_evolutions"
    case PokemonTypes => "pokemon_types"
    case PokemonForms => "pokemon_forms"
    case PokemonFormNames => "pokemon_form_names"
  }

  /** Distinct tables have distinct SQL names. */
  lemma TableNameInjective(a: Table, b: Table)
    ensures TableName(a) == TableName(b) ==> a == b
  {
  }

  /** What one `load_*` function is made of: the CSV file it reads, the
      table it writes, its shaping dict, the `pk_cols` it passes to `insert`
      and, when non-empty, the keys of which a row needs at least one not to
      be skipped. */
  datatype TableLoader = TableLoader(
    file: string, table: Table, columns: seq<Column>, key: seq<string>, skipUnlessAny: seq<string>)

  /** The default `pk_cols` of `insert`. */
  const DefaultKey: seq<string> := ["id"]

  /** `load_languages` */
  const LanguagesLoader: TableLoader := TableLoader("languages.csv", Languages, [
      Column("id", Required("id")),
      Column("iso639", Required("iso639")),
      Column("iso3166", Required("iso3166")),
      Column("identifier", Required("identifier")),
      Column("official", Flag("official"))],
    DefaultKey, [])

  /** `load_pokemon_species` */
  const PokemonSpeciesLoader: TableLoader := TableLoader("pokemon_species.csv", PokemonSpecies, [
      Column("id", Required("id")),
      Column("identifier", Required("identifier")),
      Column("is_legendary", Flag("is_legendary")),
      Column("is_mythical", Flag("is_mythical")),
      Column("is_ultra_beast", UltraBeastOf("id"))],
    DefaultKey, [])

  /** `load_pokemon_species_names` */
  const PokemonSpeciesNamesLoader: TableLoader := TableLoader("pokemon_species_names.csv", PokemonSpeciesNames, [
      Column("species_id", Required("pokemon_species_id")),
      Column("language_id", Required("local_language_id")),
      Column("name", Required("name")),
      Column("genus", Optional("genus"))],
    ["species_id", "language_id"], [])

  /** `load_pokemon_species_flavor_text` */
  const PokemonSpeciesFlavorTextLoader: TableLoader := TableLoader("pokemon_species_flavor_text.csv", PokemonSpeciesFlavorText, [
      Column("species_id", Required("species_id")),
      Column("language_id", Required("language_id")),
      Column("flavor_text", Required("flavor_text"))],
    ["species_id", "language_id"], [])

  /** `load_pokemon` */
  const PokemonLoader: TableLoader := TableLoader("pokemon.csv", Pokemon, [
      Column("id", Required("id")),
      Column("identifier", Required("identifier")),
      Column("species_id", Required("species_id")),
      Column("height", Required("height")),
      Column("weight", Required("weight")),
      Column("base_experience", Required("base_experience")),
      Column("is_default", Flag("is_default"))],
    DefaultKey, [])

  /** `load_evolution_triggers` */
  const EvolutionTriggersLoader: TableLoader := TableLoader("evolution_triggers.csv", EvolutionTriggers, [
      Column("id", Required("id")),
      Column("identifier", Required("identifier"))],
    DefaultKey, [])

  /** `load_items` */
  const ItemsLoader: TableLoader := TableLoader("items.csv", Items, [
      Column("id", Required("id")),
      Column("identifier", Required("identifier")),
      Column("cost", Required("cost"))],
    DefaultKey, [])

  /** `load_move_targets` */
  const MoveTargetsLoader: TableLoader := TableLoader("move_targets.csv", MoveTargets, [
      Column("id", Required("id")),
      Column("identifier", Required("identifier"))],
    DefaultKey, [])

  /** `load_damage_classes` */
  const DamageClassesLoader: TableLoader := TableLoader("move_damage_classes.csv", DamageClasses, [
      Column("id", Required("id")),
      Column("identifier", Required("identifier"))],
    DefaultKey, [])

  /** `load_types` */
  const TypesLoader: TableLoader := TableLoader("types.csv", Types, [
      Column("id", Required("id")),
      Column("identifier", Required("identifier"))],
    DefaultKey, [])

  /** `load_move_effects` */
  const MoveEffectsLoader: TableLoader := TableLoader("move_effects.csv", MoveEffects, [
      Column("id", Required("id"))],
    DefaultKey, [])

  /** `load_moves` */
  const MovesLoader: TableLoader := TableLoader("moves.csv", Moves, [
      Column("id", Required("id")),
      Column("identifier", Required("identifier")),
      Column("type_id", Required("type_id")),
      Column("power", Optional("power")),
      Column("pp", Optional("pp")),
      Column("accuracy", Optional("accuracy")),
      Column("priority", Required("priority")),
      Column("target_id", Required("target_id")),
      Column("damage_class_id", OptionalOr("damage_class_id", Int(2))),
      Column("effect_id", OptionalOr("effect_id", Int(1))),
      Column("effect_chance", Optional("effect_chance"))],
    DefaultKey, [])

  /** `load_pokemon_evolutions` */
  const PokemonEvolutionsLoader: TableLoader := TableLoader("pokemon_evolution.csv", PokemonEvolutions, [
      Column("id", Required("id")),
      Column("evolved_species_id", Required("evolved_species_id")),
      Column("evolution_trigger_id", Required("evolution_trigger_id")),
      Column("trigger_item_id", Optional("trigger_item_id")),
      Column("minimum_level", Optional("minimum_level")),
      Column("held_item_id", Optional("held_item_id")),
      Column("time_of_day", Optional("time_of_day")),
      Column("known_move_id", Optional("known_move_id")),
      Column("known_move_type_id", Optional("known_move_type_id")),
      Column("minimum_happiness", Optional("minimum_happiness"))],
    DefaultKey, [])

  /** `load_pokemon_types` */
  const PokemonTypesLoader: TableLoader := TableLoader("pokemon_types.csv", PokemonTypes, [
      Column("pokemon_id", Required("pokemon_id")),
      Column("type_id", Required("type_id"))],
    ["pokemon_id", "type_id"], [])

  /** `load_pokemon_forms` */
  const PokemonFormsLoader: TableLoader := TableLoader("pokemon_forms.csv", PokemonForms, [
      Column("id", Required("id")),
      Column("identifier", Required("identifier")),
      Column("form_identifier", TextOf("form_identifier")),
      Column("pokemon_id", Required("pokemon_id")),
      Column("is_default", Flag("is_default")),
      Column("is_mega", Flag("is_mega")),
      Column("enabled", Literal(Bool(false))),
      Column("allow_catch", Literal(Bool(false))),
      Column("allow_redeem", Literal(Bool(false)))],
    DefaultKey, [])

  /** `load_pokemon_form_names` */
  const PokemonFormNamesLoader: TableLoader := TableLoader("pokemon_form_names.csv", PokemonFormNames, [
      Column("form_id", Required("pokemon_form_id")),
      Column("language_id", Required("local_language_id")),
      Column("form_name", Optional("form_name")),
      Column("pokemon_name", Optional("pokemon_name"))],
    ["form_id", "language_id"], ["form_name", "pokemon_name"])

  /** The `continue` of `load_pokemon_form_names`: a row that has none of
      the keys the loader asks for. */
  predicate Skips(l: TableLoader, row: Fields)
  {
    l.skipUnlessAny != [] && forall k :: k in l.skipUnlessAny ==> k !in Keys(row)
  }

  /** No two entries of a shaping dict have the same name. */
  predicate DistinctNames(cols: seq<Column>)
  {
    forall i, j :: 0 <= i < j < |cols| ==> cols[i].name != cols[j].name
  }

  /** A shaping dict that never yields an empty record and names each entry
      once, and a key made of its own columns. */
  predicate WellFormed(l: TableLoader)
  {
    l.columns != [] && DistinctNames(l.columns) && l.key != [] && forall k :: k in l.key ==> k in Names(l.columns)
  }

  /** The value of one dict entry, or the `KeyError` it raises. */
  function Eval(rule: Rule, row: Fields): (r: Result<Value>)
    ensures r.Err? ==> RequiredKey(rule).Some? && r.error == MissingKey(RequiredKey(rule).value)
  {
    match rule
    case Required(k) => if k in Keys(row) then Ok(Lookup(row, k).value) else Err(MissingKey(k))
    case Optional(k) => Ok(if k in Keys(row) then Lookup(row, k).value else Null)
    case OptionalOr(k, d) => Ok(if k in Keys(row) then Lookup(row, k).value else d)
    case Flag(k) => Ok(Bool(GetBool(row, k)))
    case TextOf(k) => Ok(GetStr(row, k))
    case Literal(v) => Ok(v)
    case UltraBeastOf(k) => if k in Keys(row) then Ok(Bool(IsUltraBeast(Lookup(row, k).value))) else Err(MissingKey(k))
  }

  /** The shaping dict: its entries in order; the first entry that raises
      aborts the whole dict. */
  function Shape(cols: seq<Column>, row: Fields): (r: Result<Fields>)
    ensures r.Err? ==> r.error.MissingKey?
  {
    if cols == [] then Ok([])
    else
      var v :- Eval(cols[0].rule, row);
      var rest :- Shape(cols[1..], row);
      Ok([(cols[0].name, v)] + rest)
  }

  function Names(cols: seq<Column>): (ns: seq<string>)
    ensures |ns| == |cols| && forall i :: 0 <= i < |cols| ==> ns[i] == cols[i].name
  {
    if cols == [] then [] else [cols[0].name] + Names(cols[1..])
  }

  /** The row keys a rule reads with `row[key]`. */
  function RequiredKey(rule: Rule): Option<string>
  {
    match rule
    case Required(k) => Some(k)
    case UltraBeastOf(k) => Some(k)
    case _ => None
  }

  /** A rule raises exactly when it subscripts a key the row lacks. */
  lemma EvalFails(rule: Rule, row: Fields)
    ensures Eval(rule, row).Err? <==> RequiredKey(rule).Some? && RequiredKey(rule).value !in Keys(row)
    ensures Eval(rule, row).Err? ==> Eval(rule, row).error == MissingKey(RequiredKey(rule).value)
  {
  }

  /** A shaping dict is built exactly when every entry evaluates; it then has
      one entry per column, named as the column, holding that column's value,
      in column order. */
  lemma {:induction false} ShapeSucceeds(cols: seq<Column>, row: Fields)
    ensures Shape(cols, row).Ok? <==> forall i :: 0 <= i < |cols| ==> Eval(cols[i].rule, row).Ok?
    ensures Shape(cols, row).Ok? ==>
      var rec := Shape(cols, row).value;
      Keys(rec) == Names(cols) &&
      forall i :: 0 <= i < |cols| ==> rec[i] == (cols[i].name, Eval(cols[i].rule, row).value)
  {
    if cols != [] {
      ShapeSucceeds(cols[1..], row);
      assert forall i :: 1 <= i < |cols| ==> cols[1..][i - 1] == cols[i];
      if Shape(cols, row).Ok? {
        assert Names(cols) == [cols[0].name] + Names(cols[1..]);
      }
    }
  }

  /** A failing dict raises the `KeyError` of its first failing entry. */
  lemma {:induction false} ShapeFailsAtFirst(cols: seq<Column>, row: Fields)
    requires Shape(cols, row).Err?
    ensures exists i :: (0 <= i < |cols| && Eval(cols[i].rule, row).Err? &&
                        Shape(cols, row).error == Eval(cols[i].rule, row).error &&
                        (forall j :: 0 <= j < i ==> Eval(cols[j].rule, row).Ok?))
  {
    if Eval(cols[0].rule, row).Err? {
      assert Eval(cols[0].rule, row).Err?;
    } else {
      ShapeFailsAtFirst(cols[1..], row);
      var i :| 0 <= i < |cols[1..]| && Eval(cols[1..][i].rule, row).Err? &&
        Shape(cols[1..], row).error == Eval(cols[1..][i].rule, row).error &&
        (forall j :: 0 <= j < i ==> Eval(cols[1..][j].rule, row).Ok?);
      assert forall j :: 1 <= j < i + 1 ==> cols[j] == cols[1..][j - 1];
      assert Eval(cols[i + 1].rule, row).Err?;
    }
  }

  /** The rule of the first column called `name` at or after position `i`,
      if there is one. */
  function RuleOf(cols: seq<Column>, name: string, i: nat): Option<Rule>
    decreases |cols| - i
  {
    if i >= |cols| then None
    else if cols[i].name == name then Some(cols[i].rule)
    else RuleOf(cols, name, i + 1)
  }

  /** Looking a name up in a built record yields the value of the first
      column of that name, and nothing when no column has that name. */
  lemma ShapedLookup(cols: seq<Column>, row: Fields, name: string)
    requires Shape(cols, row).Ok?
    ensures RuleOf(cols, name, 0).Some? ==> Eval(RuleOf(cols, name, 0).value, row).Ok?
    ensures Lookup(Shape(cols, row).value, name) ==
      if RuleOf(cols, name, 0).Some? then Some(Eval(RuleOf(cols, name, 0).value, row).value) else None
  {
    assert cols[0..] == cols;
    ShapedLookupFrom(cols, row, name, 0);
  }

  lemma {:induction false} ShapedLookupFrom(cols: seq<Column>, row: Fields, name: string, i: nat)
    requires i <= |cols|
    requires Shape(cols[i..], row).Ok?
    ensures RuleOf(cols, name, i).Some? ==> Eval(RuleOf(cols, name, i).value, row).Ok?
    ensures Lookup(Shape(cols[i..], row).value, name) ==
      if RuleOf(cols, name, i).Some? then Some(Eval(RuleOf(cols, name, i).value, row).value) else None
    decreases |cols| - i
  {
    if i < |cols| {
      assert cols[i..][0] == cols[i];
      assert cols[i..][1..] == cols[i + 1..];
      ShapedLookupFrom(cols, row, name, i + 1);
    }
  }

  /** No column at or after position `i` shares its name with a later one:
      `DistinctNames` computed column by column. */
  predicate NamesDistinctFrom(cols: seq<Column>, i: nat)
    decreases |cols| - i
  {
    i >= |cols| || (RuleOf(cols, cols[i].name, i + 1).None? && NamesDistinctFrom(cols, i + 1))
  }

  lemma {:induction false} RuleOfNone(cols: seq<Column>, name: string, i: nat)
    requires RuleOf(cols, name, i).None?
    ensures forall j :: i <= j < |cols| ==> cols[j].name != name
    decreases |cols| - i
  {
    if i < |cols| {
      RuleOfNone(cols, name, i + 1);
    }
  }

  lemma {:induction false} NamesDistinctFromSound(cols: seq<Column>, i: nat)
    requires NamesDistinctFrom(cols, i)
    ensures forall a, b :: i <= a < b < |cols| ==> cols[a].name != cols[b].name
    decreases |cols| - i
  {
    if i < |cols| {
      RuleOfNone(cols, cols[i].name, i + 1);
      NamesDistinctFromSound(cols, i + 1);
    }
  }

  /** Every `load_*` dict names each entry once. */
  lemma SpeciesDictsDistinct()
    ensures NamesDistinctFrom(LanguagesLoader.columns, 0)
    ensures NamesDistinctFrom(PokemonSpeciesLoader.columns, 0)
    ensures NamesDistinctFrom(PokemonSpeciesNamesLoader.columns, 0)
    ensures NamesDistinctFrom(PokemonSpeciesFlavorTextLoader.columns, 0)
  {
  }

  lemma SmallDictsDistinct()
    ensures NamesDistinctFrom(PokemonLoader.columns, 0)
    ensures NamesDistinctFrom(EvolutionTriggersLoader.columns, 0)
    ensures NamesDistinctFrom(ItemsLoader.columns, 0)
    ensures NamesDistinctFrom(MoveTargetsLoader.columns, 0)
    ensures NamesDistinctFrom(DamageClassesLoader.columns, 0)
    ensures NamesDistinctFrom(TypesLoader.columns, 0)
    ensures NamesDistinctFrom(MoveEffectsLoader.columns, 0)
  {
  }

  lemma MovesDictDistinct()
    ensures NamesDistinctFrom(MovesLoader.columns, 0)
  {
  }

  lemma EvolutionsDictDistinct()
    ensures NamesDistinctFrom(PokemonEvolutionsLoader.columns, 0)
  {
  }

  lemma FormDictsDistinct()
    ensures NamesDistinctFrom(PokemonTypesLoader.columns, 0)
    ensures NamesDistinctFrom(PokemonFormsLoader.columns, 0)
    ensures NamesDistinctFrom(PokemonFormNamesLoader.columns, 0)
  {
  }

  /** A column with a constant holds that constant in every built record. */
  lemma LiteralColumn(cols: seq<Column>, row: Fields, name: string, v: Value)
    requires Shape(cols, row).Ok?
    requires RuleOf(cols, name, 0) == Some(Literal(v))
    ensures Lookup(Shape(cols, row).value, name) == Some(v)
  {
    ShapedLookup(cols, row, name);
    assert Eval(Literal(v), row) == Ok(v);
  }

  /** A `row.get(key, default)` column holds the row's value when the row
      has the key and the default otherwise. */
  lemma DefaultColumn(cols: seq<Column>, row: Fields, name: string, d: Value)
    requires Shape(cols, row).Ok?
    requires RuleOf(cols, name, 0) == Some(OptionalOr(name, d))
    ensures Lookup(Shape(cols, row).value, name) ==
      if name in Keys(row) then Lookup(row, name) else Some(d)
  {
    ShapedLookup(cols, row, name);
    assert Eval(OptionalOr(name, d), row) == Ok(if name in Keys(row) then Lookup(row, name).value else d);
  }

  /** A `row.get(key)` column is always present, holding `None` when the row
      lacks the key. */
  lemma OptionalColumn(cols: seq<Column>, row: Fields, name: string)
    requires Shape(cols, row).Ok?
    requires RuleOf(cols, name, 0) == Some(Optional(name))
    ensures Lookup(Shape(cols, row).value, name) ==
      if name in Keys(row) then Lookup(row, name) else Some(Null)
  {
    ShapedLookup(cols, row, name);
    assert Eval(Optional(name), row) == Ok(if name in Keys(row) then Lookup(row, name).value else Null);
  }

  /** A `row[key] in ULTRA_BEASTS` column of a built record: the row has the
      key and the column says whether its value is an ultra beast id. */
  lemma UltraBeastColumn(cols: seq<Column>, row: Fields, name: string, key: string)
    requires Shape(cols, row).Ok?
    requires RuleOf(cols, name, 0) == Some(UltraBeastOf(key))
    ensures key in Keys(row)
    ensures Lookup(Shape(cols, row).value, name) == Some(Bool(IsUltraBeast(Lookup(row, key).value)))
  {
    ShapedLookup(cols, row, name);
    assert Eval(UltraBeastOf(key), row).Ok?;
  }

  /** Where the columns that the lemmas below are about sit in their dicts. */
  lemma SpeciesColumnRules()
    ensures RuleOf(PokemonSpeciesLoader.columns, "is_ultra_beast", 0) == Some(UltraBeastOf("id"))
  {
  }

  lemma MoveColumnRules()
    ensures RuleOf(MovesLoader.columns, "damage_class_id", 0) == Some(OptionalOr("damage_class_id", Int(2)))
    ensures RuleOf(MovesLoader.columns, "effect_id", 0) == Some(OptionalOr("effect_id", Int(1)))
    ensures RuleOf(MovesLoader.columns, "accuracy", 0) == Some(Optional("accuracy"))
  {
  }

  lemma FormColumnRules()
    ensures RuleOf(PokemonFormsLoader.columns, "enabled", 0) == Some(Literal(Bool(false)))
    ensures RuleOf(PokemonFormsLoader.columns, "allow_catch", 0) == Some(Literal(Bool(false)))
    ensures RuleOf(PokemonFormsLoader.columns, "allow_redeem", 0) == Some(Literal(Bool(false)))
  {
  }

  /** `is_ultra_beast` is true exactly for the species ids 793-799 and
      803-806, whatever other columns the source file has. */
  lemma UltraBeastFlag(row: Fields)
    requires Shape(PokemonSpeciesLoader.columns, row).Ok?
    ensures var id := Lookup(row, "id").value;
      Lookup(Shape(PokemonSpeciesLoader.columns, row).value, "is_ultra_beast") ==
        Some(Bool(id.Int? && (793 <= id.i <= 799 || 803 <= id.i <= 806)))
  {
    SpeciesColumnRules();
    UltraBeastColumn(PokemonSpeciesLoader.columns, row, "is_ultra_beast", "id");
    var id := Lookup(row, "id").value;
    if id.Int? {
      UltraBeastRange(id.i);
    }
  }

  lemma UltraBeastRange(i: int)
    ensures i in UltraBeasts <==> 793 <= i <= 799 || 803 <= i <= 806
  {
  }

  /** A move without `damage_class_id` is stored with damage class 2; one
      with it keeps its own value. */
  lemma MoveDamageClassDefault(row: Fields)
    requires Shape(MovesLoader.columns, row).Ok?
    ensures Lookup(Shape(MovesLoader.columns, row).value, "damage_class_id") ==
      if "damage_class_id" in Keys(row) then Lookup(row, "damage_class_id") else Some(Int(2))
  {
    MoveColumnRules();
    DefaultColumn(MovesLoader.columns, row, "damage_class_id", Int(2));
  }

  /** A move without `effect_id` is stored with effect 1; one with it keeps
      its own value. */
  lemma MoveEffectDefault(row: Fields)
    requires Shape(MovesLoader.columns, row).Ok?
    ensures Lookup(Shape(MovesLoader.columns, row).value, "effect_id") ==
      if "effect_id" in Keys(row) then Lookup(row, "effect_id") else Some(Int(1))
  {
    MoveColumnRules();
    DefaultColumn(MovesLoader.columns, row, "effect_id", Int(1));
  }

  /** An absent optional move field such as `accuracy` is still a column of
      the record, holding `None`. */
  lemma MoveAccuracyOptional(row: Fields)
    requires Shape(MovesLoader.columns, row).Ok?
    ensures Lookup(Shape(MovesLoader.columns, row).value, "accuracy") ==
      if "accuracy" in Keys(row) then Lookup(row, "accuracy") else Some(Null)
  {
    MoveColumnRules();
    OptionalColumn(MovesLoader.columns, row, "accuracy");
  }

  /** Every form is stored with `enabled` false. */
  lemma FormNotEnabled(row: Fields)
    requires Shape(PokemonFormsLoader.columns, row).Ok?
    ensures Lookup(Shape(PokemonFormsLoader.columns, row).value, "enabled") == Some(Bool(false))
  {
    FormColumnRules();
    LiteralColumn(PokemonFormsLoader.columns, row, "enabled", Bool(false));
  }

  /** Every form is stored with `allow_catch` false. */
  lemma FormNotCatchable(row: Fields)
    requires Shape(PokemonFormsLoader.columns, row).Ok?
    ensures Lookup(Shape(PokemonFormsLoader.columns, row).value, "allow_catch") == Some(Bool(false))
  {
    FormColumnRules();
    LiteralColumn(PokemonFormsLoader.columns, row, "allow_catch", Bool(false));
  }

  /** Every form is stored with `allow_redeem` false. */
  lemma FormNotRedeemable(row: Fields)
    requires Shape(PokemonFormsLoader.columns, row).Ok?
    ensures Lookup(Shape(PokemonFormsLoader.columns, row).value, "allow_redeem") == Some(Bool(false))
  {
    FormColumnRules();
    LiteralColumn(PokemonFormsLoader.columns, row, "allow_redeem", Bool(false));
  }

  /** `load_pokemon_form_names` skips exactly the rows that have neither a
      form name nor a pokemon name. */
  lemma FormNamesSkip(row: Fields)
    ensures Skips(PokemonFormNamesLoader, row) <==>
      Lookup(row, "form_name").None? && Lookup(row, "pokemon_name").None?
  {
  }
}
