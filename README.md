# Pokédex seed loader — a Dafny model of data.py

data.py seeds a PostgreSQL database from the CSV files of the Pokédex
project. Each CSV row goes through the same pipeline:

- it is normalised: empty fields are dropped and integer-looking fields become `int`;
- it is shaped by the table's `data = {...}` dict;
- it is turned into a parameterised `INSERT ... ON CONFLICT` statement by `insert`;
- that statement is executed on a shared connection.

`load_db` runs sixteen such loaders in an order in which every table is
filled after the tables it references.

The model has five modules:

- `Values` (values.dfy): the scalar values (`Int`, `Text`, `Bool`, `Null`),
  ordered dicts as sequences of pairs, and the `Result` type that stands for
  Python's exceptions. These are `KeyError` from `row[key]`, the unpacking
  error on an empty record, and `FileNotFoundError` for a missing CSV file.
- `Coercion` (coercion.dfy): `is_int`, `get_bool`, `get_str` and the
  normalising comprehension of `get_data_from`, as functions. Each comes with
  lemmas on what it yields for a raw field. Among them is the round trip
  `int(str(i)) == i`, with which the contract of `GetStr` is stated.
- `Synthesis` (synthesis.dfy): `insert` as a function building a statement
  datatype, not SQL text. The datatype holds:
  - the table;
  - the columns;
  - the placeholder numbers;
  - one of the three conflict clauses, or none.

  Lemmas state the placeholder/parameter binding, the choice of conflict
  branch and which columns are overwritten.
- `Shaping` (shaping.dfy): each `load_*` is written as data, a
  `TableLoader`. It holds the CSV file, the target table, the shaping dict
  as a list of columns with the rule computing each, the `pk_cols`, and the
  keys of which a row needs at least one not to be skipped. A single
  function `Shape` evaluates a dict in order; the first failing entry aborts
  it. Generic lemmas give the value of each kind of column. The business
  constants follow from them:
  - the ultra-beast flag;
  - the move defaults;
  - the form flags forced to false;
  - the skip in `load_pokemon_form_names`.
- `Loader` (loader.dfy): a `Connection` class whose `log` records every
  executed `(stmt, *params)`. The loaders are imperative:
  - `LoadTable` is the `for` loop of a `load_*`;
  - `RunLoader` opens the file and runs that loop;
  - `LoadAll` and `LoadDb` are `load_db`.

  Each method is proved against a specification function on values:
  - `Step` is one row;
  - `RunTable` is one loader over its rows;
  - `LoaderRun` is one loader on the CSV directory;
  - `RunPlan` is the whole plan.

  Lemmas about those functions state the per-row behaviour, fail-fast
  aborting, the one-statement-per-row log, and the foreign-key order of the
  whole log.

Two behaviours of data.py that are easy to misread:

- `load_move_effects` (data.py:185-188) calls `insert` with the default key
  `("id",)` and a dict holding only `id`. Its statement therefore ends in
  `ON CONFLICT DO NOTHING`; it is not a plain insert without a conflict
  clause.
- `load_moves` writes `"accuracy": row.get("accuracy")` (data.py:199). A
  move row without `accuracy` still yields a record with an `accuracy`
  column, holding `None`; the column is not omitted.

Each `load_*` of data.py is a constant `TableLoader` in `Shaping`, and
`load_db`'s sequence of calls is the constant `Loader.Plan`
(data.py:270-285). Their contents are stated by `PlanTables`,
`PlanWellFormed`, `PlanSkipsOnlyFormNames` and the column lemmas of the
table below:

| constant | source |
|---|---|
| LanguagesLoader | data.py:70-79 |
| PokemonSpeciesLoader | data.py:82-91 |
| PokemonSpeciesNamesLoader | data.py:94-106 |
| PokemonSpeciesFlavorTextLoader | data.py:109-122 |
| PokemonLoader | data.py:125-136 |
| EvolutionTriggersLoader | data.py:139-145 |
| ItemsLoader | data.py:148-155 |
| MoveTargetsLoader | data.py:158-164 |
| DamageClassesLoader | data.py:167-173 |
| TypesLoader | data.py:176-182 |
| MoveEffectsLoader | data.py:185-188 |
| MovesLoader | data.py:191-206 |
| PokemonEvolutionsLoader | data.py:209-223 |
| PokemonTypesLoader | data.py:226-234 |
| PokemonFormsLoader | data.py:237-250 |
| PokemonFormNamesLoader | data.py:253-265 |

The dicts of data.py never repeat a key. The model's `WellFormed` loader
requires distinct column names, and `PlanWellFormed` proves it of every
loader, so a shaped record has exactly one entry per column.

## Model

| member | source | states |
|---|---|---|
| Values.Lookup | data.py:28 | `d.get(key)` is `None` exactly when the key is not among the dict's keys |
| Coercion.IsInt | data.py:14-20 | `is_int(v)` holds exactly when `v` is non-empty, starts with a digit or with a sign followed by more text, and has only digits after its first character |
| Coercion.ParseInt | data.py:16 | `int(v)` of an accepted text is non-positive when the text starts with `-` and non-negative otherwise |
| Coercion.GetBool | data.py:23-24 | `get_bool` is true only for a key the row has |
| Coercion.GetStr | data.py:27-32 | `get_str` is `None` exactly when the key is missing or holds `None`; otherwise it is a text: the field's own text, or for an integer field a text that `int()` maps back to that integer |
| Coercion.CoerceIntText | data.py:66 | a field written as `str(i)` for any integer `i`, negative ones included, normalises back to the integer `i` |
| Coercion.Digits | data.py:32 | `str` of a non-negative integer is a non-empty string of decimal digits without a leading zero |
| Coercion.DigitsRoundTrip | data.py:14-20 | the digits written for `n` parse back to `n` |
| Coercion.IntTextRoundTrip | data.py:14-32 | the text form `str(i)` of any integer, negative ones included, is accepted by `is_int` and `int()` gives back `i` |
| Coercion.Normalize | data.py:66 | the normalised row never has more fields than the raw row, keeps only raw keys in their original order, and holds only integers and non-empty texts |
| Coercion.NormalizeLookup | data.py:66 | a field is in the normalised row exactly when its raw text is non-empty, and then holds `int(v)` when `is_int(v)` and the text `v` otherwise |
| Coercion.BoolCoercion | data.py:23-24 | `get_bool` is false for a missing or empty field and otherwise true unless the field is an integer equal to 0 |
| Coercion.StrCoercion | data.py:27-32 | `get_str` is `None` for a missing or empty field; it returns the raw text of a non-integer field, and for an integer field `str(int(v))`, the canonical text of the same integer (so `"007"` becomes `"7"`) |
| Synthesis.UpdateColumns | data.py:42 | the update columns are exactly the record columns not in the key, in their original relative order |
| Synthesis.UpdateColumnsCounts | data.py:42 | each non-key column occurs among the update columns as often as in the record, and a key column not at all |
| Synthesis.Insert | data.py:35-58 | `insert` fails exactly on an empty record, with the unpacking error, and succeeds on every other record |
| Synthesis.InsertBindsEveryColumn | data.py:36-58 | for a non-empty record the statement targets the given table and lists every column once, in record order; column i gets placeholder `$i+1`, bound to the record's i-th value |
| Synthesis.PlainInsertIffNoKey | data.py:41 | there is no conflict clause exactly when the key is empty |
| Synthesis.ConflictBranches | data.py:41-57 | with a non-empty key, exactly one of DO NOTHING, single assignment or tuple assignment fires, chosen by 0, 1 or more update columns; DO UPDATE targets the key, and each update column is assigned its own `EXCLUDED` value, position by position |
| Synthesis.AssignedAreNonKeyColumns | data.py:42-57 | the columns a conflict clause overwrites are exactly the non-key columns of the record, in record order |
| Synthesis.OnlyKeyColumnsDoNothing | data.py:42-44 | a record made of key columns only gets `ON CONFLICT DO NOTHING` |
| Shaping.TableNameInjective | data.py:79-264 | the sixteen tables are passed to `insert` under sixteen distinct names |
| Shaping.Eval | data.py:70-265 | a dict entry raises only when it subscripts a key, and then with `KeyError` on that key |
| Shaping.Shape | data.py:70-265 | building a dict raises only `KeyError` |
| Shaping.EvalFails | data.py:70-265 | a dict entry raises exactly when it subscripts (`row[key]`) a key the row lacks, and then raises `KeyError(key)` |
| Shaping.ShapeSucceeds | data.py:70-265 | a shaping dict is built exactly when every entry evaluates; it then has one entry per column, in column order, named as the column and holding that entry's value (for the distinct names every loader of data.py uses, this is the dict display's result) |
| Shaping.ShapeFailsAtFirst | data.py:70-265 | a failing dict raises the error of its first failing entry, all entries before it having evaluated |
| Shaping.ShapedLookup | data.py:70-265 | looking a name up in a built record yields the value of the first column of that name, and nothing when no column has it |
| Shaping.LiteralColumn | data.py:246-248 | a constant entry holds its constant in every built record |
| Shaping.DefaultColumn | data.py:202-203 | a `row.get(key, default)` entry holds the row's value when the row has the key and the default otherwise |
| Shaping.OptionalColumn | data.py:197-199 | a `row.get(key)` entry is always present, holding `None` when the row lacks the key |
| Shaping.UltraBeastColumn | data.py:89 | a `row[key] in ULTRA_BEASTS` entry of a built record means the row has the key, and says whether its value is an ultra beast id |
| Shaping.UltraBeastRange | data.py:9 | `ULTRA_BEASTS` is exactly the ids 793-799 and 803-806 |
| Shaping.UltraBeastFlag | data.py:89 | a species record's `is_ultra_beast` is true exactly when its `id` is an integer in 793-799 or 803-806 |
| Shaping.MoveDamageClassDefault | data.py:202 | a move record's `damage_class_id` is the row's value if present, otherwise 2 |
| Shaping.MoveEffectDefault | data.py:203 | a move record's `effect_id` is the row's value if present, otherwise 1 |
| Shaping.MoveAccuracyOptional | data.py:199 | a move record always has `accuracy`, holding `None` when the row lacks it |
| Shaping.FormNotEnabled | data.py:246 | every form record has `enabled` false |
| Shaping.FormNotCatchable | data.py:247 | every form record has `allow_catch` false |
| Shaping.FormNotRedeemable | data.py:248 | every form record has `allow_redeem` false |
| Shaping.FormNamesSkip | data.py:255-256 | a form-name row is skipped exactly when it has neither `form_name` nor `pokemon_name` |
| Loader.Connection.constructor | data.py:269 | a new connection has executed nothing |
| Loader.Connection.Execute | data.py:79 | executing a statement appends it, with its parameters, to the log |
| Loader.Step | data.py:253-265 | a skipped row yields nothing, and a row raises only `KeyError` or the unpacking error of `insert` |
| Loader.StepStatement | data.py:253-265 | a row yields nothing exactly when the loader skips it, and a statement exactly when it is not skipped and every dict entry evaluates; that statement inserts into the loader's table the dict's columns in order, placeholder `$i+1` bound to the i-th entry's value, with the conflict clause the loader's key chooses |
| Loader.RunTable | data.py:65-79 | a loader's run over its rows fails exactly when some row raises |
| Loader.RunPlan | data.py:270-285 | a run of a plan fails exactly when some loader fails |
| Loader.StepFailsOnlyOnMissingKey | data.py:70-265 | for a loader with a non-empty dict and a key made of its own columns, a row can only fail with `KeyError`, on a key the dict subscripts |
| Loader.KeyOnlyLoaderDoesNothing | data.py:185-188 | a loader whose dict holds key columns only inserts every row with `ON CONFLICT DO NOTHING` |
| Loader.RunTableTargetsTable | data.py:70-79 | every statement a loader executes targets the loader's own table |
| Loader.LoaderRunTargetsTable | data.py:61-79 | the same holds for a loader run on the CSV directory, a missing file executing nothing |
| Loader.RunTableLog | data.py:65-79 | a loader that does not fail raises on no row, yields nothing exactly for the rows it skips, and executes the statements of the other rows, in row order |
| Loader.OneStatementPerRow | data.py:65-79 | a loader that skips nothing and does not fail executes exactly one statement per row, in row order: that row's shaped record through `insert` |
| Loader.FailFast | data.py:65-79 | a loader fails exactly when one of its rows raises; it then has executed exactly the statements of the rows before the first failing row, and carries that row's error |
| Loader.RunPlanFailFast | data.py:268-285 | `load_db` fails exactly when one of its loaders fails; it then stops at the first failing loader, after the earlier loaders ran to completion and the failing one executed the statements before its failing row, and carries that loader's error |
| Loader.LoadTable | data.py:253-265 | the loop of a `load_*` (normalise, skip, shape, insert, execute) leaves the log extended by exactly what `RunTable` says and returns its error |
| Loader.RunLoader | data.py:61-63 | a loader whose file is missing fails with `FileNotFoundError` before executing anything; otherwise it runs `LoadTable` on the file's rows |
| Loader.LoadAll | data.py:270-285 | awaiting the loaders one after another on one connection extends the log by the sequenced runs, stopping at the first failure |
| Loader.LoadDb | data.py:268-285 | `load_db` extends the log by exactly `RunPlan(Plan, files)` and returns its error |
| Loader.RunPlanTargetsPlan | data.py:270-285 | every statement `load_db` executes targets a table of one of its loaders |
| Loader.LogRespectsReferences | data.py:270-285 | for a plan in foreign-key order, no statement in the log for a table precedes a statement for a table that table references |
| Loader.PlanTables | data.py:270-285 | `load_db` fills languages, species, species names, flavour text, pokemon, triggers, items, move targets, damage classes, types, move effects, moves, evolutions, pokemon types, forms and form names, in that order |
| Loader.LoadOrderOrdered | data.py:270-285 | in that order, no table comes before a table it references |
| Loader.PlanRespectsReferences | data.py:270-285 | the loaders of `load_db` fill each table after every table it references |
| Loader.PlanTablesDistinct | data.py:270-285 | `load_db` runs sixteen loaders, fills each of the sixteen tables, and fills no table twice |
| Loader.PlanWellFormed | data.py:70-265 | every loader has a non-empty shaping dict with distinct column names and a key made of its own columns |
| Loader.PlanSkipsOnlyFormNames | data.py:253-256 | `load_pokemon_form_names` is the only loader that skips rows |
| Loader.LoadDbRespectsReferences | data.py:268-285 | in everything `load_db` executes, no statement for a table comes before a statement for a table that table references |
| Loader.SingleUpdateColumnExample | data.py:139-145 | `load_evolution_triggers` turns the row `id=1, identifier=level-up` into `INSERT INTO evolution_triggers (id, identifier) VALUES ($1, $2) ON CONFLICT (id) DO UPDATE SET identifier = EXCLUDED.identifier` with parameters 1 and `level-up` |
| Loader.MoveEffectsDoNothing | data.py:185-188 | every statement `load_move_effects` executes ends in `ON CONFLICT DO NOTHING` |
| Loader.PokemonTypesDoNothing | data.py:226-234 | every statement `load_pokemon_types` executes ends in `ON CONFLICT DO NOTHING` |

## Left out

- main.py (the command-line interface, bot start-up, migrations) is not part of this model.
- Opening the connection (`asyncpg.connect`) is modelled only as a fresh `Connection` with an empty log. `LoadDb` takes that connection as a parameter instead of a URI.
- Executing SQL, and every database-side failure (constraint violations, lost connections), is left out. `Execute` only appends to the log.
- `async`/`await` is dropped: the code awaits each call before the next, so it runs strictly in sequence.
- File I/O and CSV parsing (`open`, `DictReader`) are left out. The CSV directory is a map from file name to rows. Each row is the header-to-text pairs `DictReader` yields, with distinct keys. Ragged rows (`None` keys or values) are not modelled.
- `get_data_from` is not a separate generator. Its per-row comprehension is `Normalize`, and its loop is merged into `LoadTable`, which consumes the rows in the same order.
- The `alive_bar` progress display is left out; it only affects the terminal.
- Coercion.IsInt: models `int(v)` as an optional sign followed by one or more ASCII decimal digits. Python also accepts surrounding whitespace, `_` separators and non-ASCII digits; the model assumes the CSV files do not use them. The limit of Python 3.11 and later, under which `int()` rejects texts of more than 4300 digits, is not modelled either.
- Synthesis.Insert: the statement is a datatype, not SQL text. The whitespace and line layout is not modelled, and neither is the trailing `;` after the tuple assignment.
- Synthesis.Insert: `pk_cols=None` is treated as the empty key. No loader passes `None`.
- Loader.References: the foreign keys between the tables come from the database schema, which is not part of data.py. They are inferred from the column names the dicts write, e.g. `species_id` refers to `pokemon_species`.
- Loader.LoadAll: `load_db` makes sixteen explicit awaited calls. The model runs the same sixteen loaders, in the same order, through a loop over the constant `Plan`.
