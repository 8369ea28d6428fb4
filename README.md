# FastWorldCreator in Dafny

FastWorldCreator creates a new Minecraft save without starting the game. It
reserves a folder under `saves/` and writes a gzipped NBT `level.dat` built
from a baked-in template, the form's options and a strict schema. It also
writes data packs: a loot-table randomiser, packs built from recipe and
advancement records, and ZIP files found in an import folder. This project
models the parts that decide what gets written. These are:

- `WorldCreator` in `world_creator.dfy`: seed derivation, the world folder,
  the `datapacks` folder and the `level.dat` dictionary.
- `LevelDat` in `level_dat.dfy`: the schema tables, the template merge,
  binding to the strict schema, and the file root.
- `LevelDatUtils` and `MinecraftUtils`: the template and default game
  rules, and the difficulty enum.
- `FastWorldCreatorApp`: how the form's values become the arguments of a
  world (`parse_generator_options`, `create`).
- `Datapacks`, `RandomLoot`, `ExternalDatapacks` and `DatapackUtils`: the
  data-pack classes of `fast_world_creator`, and their helpers.
- `Elements`, `Advancements` and `CreatorDatapacks`: the element, recipe,
  item, tag, advancement and data-pack classes of `datapack_creator`.
- `Json`, `PyStr` and `Wrappers`: an insertion-ordered dictionary for
  Python's `dict`, the Python string methods used, and `Option`/`Result`.

Objects whose fields the program updates are classes:

- `Disk`, `WorldCreator` and `LevelFile`;
- the data packs, which own an entry list;
- `PackFolder`, the world's `datapacks` folder;
- `Advancement`, with its chainable setters.

Each state-changing method's `ensures` gives the whole new state in terms of
the old one and of specification functions. Lemmas then prove the program's
promises about those functions. The record builders are pure functions with
lemmas.

The file system is a set of directories and a map of written files. A failing
`open` or `mkdir` is an `Err` or a flag instead of an exception. The seeded
shuffle, `random.randint`, MD5, a jar's `namelist`, `os.walk`, reading a file
and `os.listdir` are all parameters.

## Model

| member | source | states |
|---|---|---|
| MinecraftUtils.FromValueSpec | fast_world_creator/utils/minecraft_utils.py:4-9 | `Difficulties(n)` is defined exactly for 0..4 and inverts the member values, which are distinct |
| MinecraftUtils.HardcoreIsFour | fast_world_creator/utils/minecraft_utils.py:11-12 | `is_hardcore` holds exactly for the member of value 4 |
| LevelDatUtils.TemplateDataVersion | fast_world_creator/utils/level_dat_utils.py:22 | the template's `DataVersion` is 2230 |
| LevelDatUtils.TemplateVersion | fast_world_creator/utils/level_dat_utils.py:44-48 | the template's `Version` is its version compound, whose `Id` is 2230, the same as `DataVersion` |
| LevelDatUtils.TemplateHasNoGeneratorOptions | fast_world_creator/utils/level_dat_utils.py:29 | the template has no `generatorOptions` key |
| LevelDatUtils.TemplateHasNoSpawn | fast_world_creator/utils/level_dat_utils.py:39 | the template has none of `SpawnX`, `SpawnY`, `SpawnZ` |
| LevelDatUtils.TemplateGameRules | fast_world_creator/utils/level_dat_utils.py:27 | the template's `GameRules` is empty |
| LevelDatUtils.TemplateDataPacks | fast_world_creator/utils/level_dat_utils.py:18-21 | both of the template's data pack lists are empty |
| LevelDatUtils.DefaultGamerulesShape | fast_world_creator/utils/level_dat_utils.py:61-93 | there are 31 default rules; all are booleans except four, whose values are 65536, 24, 3 and 10 |
| LevelDat.FieldType | fast_world_creator/new_world/level_dat.py:91-133 | a key has a declared type exactly when a schema entry names it, and the type is that entry's |
| LevelDat.DifficultyIsByte | fast_world_creator/new_world/level_dat.py:106 | `Difficulty` is declared Byte |
| LevelDat.HardcoreIsByte | fast_world_creator/new_world/level_dat.py:115 | `hardcore` is declared Byte |
| LevelDat.RainingIsByte | fast_world_creator/new_world/level_dat.py:121 | `raining` is declared Byte |
| LevelDat.ThunderingIsByte | fast_world_creator/new_world/level_dat.py:128 | `thundering` is declared Byte |
| LevelDat.GameTypeIsInt | fast_world_creator/new_world/level_dat.py:110 | `GameType` is declared Int |
| LevelDat.RandomSeedIsLong | fast_world_creator/new_world/level_dat.py:123 | `RandomSeed` is declared Long |
| LevelDat.BorderSizeLerpTimeIsLong | fast_world_creator/new_world/level_dat.py:99 | `BorderSizeLerpTime` is declared Long |
| LevelDat.BorderFieldsAreDoubles | fast_world_creator/new_world/level_dat.py:93-102 | every other `Border…` field is declared Double |
| LevelDat.DataPacksIsStrict | fast_world_creator/new_world/level_dat.py:66-69 | `DataPacks` is a strict schema whose `Enabled` and `Disabled` are both List of String |
| LevelDat.DimensionDataIsStrict | fast_world_creator/new_world/level_dat.py:108 | `DimensionData` is a strict schema |
| LevelDat.GeneratorOptionsIsStrict | fast_world_creator/new_world/level_dat.py:112-113 | `generatorOptions` is a strict schema (with the corrected table, see Findings) |
| LevelDat.VersionIsStrict | fast_world_creator/new_world/level_dat.py:61-65 | `Version` is a strict schema of `Id`, `Name` and `Snapshot` |
| LevelDat.TemplateKeysDeclared | fast_world_creator/utils/level_dat_utils.py:6-49 | every template key is declared in `level_data_dict`, so the template passes the strict key check |
| LevelDat.TemplateSlotsLow | fast_world_creator/new_world/level_dat.py:91-133 | the first eleven template keys are found at the stated positions of the level data table |
| LevelDat.TemplateSlotsMiddle | fast_world_creator/new_world/level_dat.py:91-133 | the same for template keys 11 to 21 |
| LevelDat.TemplateSlotsHigh | fast_world_creator/new_world/level_dat.py:91-133 | the same for template keys 22 to 32 |
| LevelDat.GameRuleKeysMatchDefaults | fast_world_creator/new_world/level_dat.py:28-60 | `game_rule_dict` has the same keys, in order, as the default game rules, and every rule is a String |
| LevelDat.InferFields | fast_world_creator/new_world/level_dat.py:175 | parsing a dumped dict keeps its keys in order |
| LevelDat.IntValueOf | fast_world_creator/new_world/level_dat.py:175 | the literal parser accepts every integer, and `int()` of the tag it gives is that integer, past 32 bits through the string fallback |
| LevelDat.LongValueBinds | fast_world_creator/new_world/level_dat.py:175 | an integer declared Long binds to itself exactly when it fits 64 bits, and is out of range otherwise |
| LevelDat.IntValueBinds | fast_world_creator/new_world/level_dat.py:175 | an integer declared Int binds to itself exactly when it fits 32 bits, and is out of range otherwise |
| LevelDat.SeedBinds | fast_world_creator/new_world/level_dat.py:123 | a `RandomSeed` of any 64-bit value binds in the level data schema to that Long |
| LevelDat.WideSeedBinds | fast_world_creator/new_world/level_dat.py:123 | the seed 2^31, one past the int range, binds |
| LevelDat.CastHasType | fast_world_creator/new_world/level_dat.py:135 | a successful coercion yields a tag of the declared type |
| LevelDat.CastItemsHaveType | fast_world_creator/new_world/level_dat.py:135 | a coerced list holds items of the element type |
| LevelDat.CastEntriesFit | fast_world_creator/new_world/level_dat.py:135 | a schema keeps every key, in order, and each value has its declared type; a strict one keeps only declared keys |
| LevelDat.StrictRejects | fast_world_creator/new_world/level_dat.py:135 | a strict schema rejects a compound that has any undeclared key |
| LevelDat.BindStrictSpec | fast_world_creator/new_world/level_dat.py:135-175 | binding succeeds only with a compound whose keys are the dict's and whose values fit the schema; an undeclared key fails |
| LevelDat.MergeSpec | fast_world_creator/new_world/level_dat.py:169-172 | an argument replaces the template's value wholesale; other template keys are kept; `DataVersion` becomes `Version.Id`; fails exactly when `Version` is missing, not a dict, or has no `Id` |
| LevelDat.MergeKeys | fast_world_creator/new_world/level_dat.py:169-172 | template keys keep their order at the front; the merged keys are the union; keys stay unique |
| LevelDat.MergedDataSpec | fast_world_creator/new_world/level_dat.py:169-172 | with the real template, the merge fails only on a supplied bad `Version`; without one `DataVersion` is 2230 |
| LevelDat.LevelFile.constructor | fast_world_creator/new_world/level_dat.py:136-147 | the parsed `{'':{Data:{}}}` file: an unnamed root holding an empty `Data`, marked gzipped |
| LevelDat.LevelFile.Data | fast_world_creator/new_world/level_dat.py:149-152 | `data` is present exactly when the root has a `Data` entry |
| LevelDat.LevelFile.SetData | fast_world_creator/new_world/level_dat.py:154-156 | the setter replaces or adds `Data` and changes nothing else; reading it back gives the value |
| LevelDat.DataOf | fast_world_creator/new_world/level_dat.py:149-152 | the root's `Data` entry is found exactly when present |
| LevelDat.PutDataGet | fast_world_creator/new_world/level_dat.py:154-156 | after storing `Data`, reading `Data` gives the stored value |
| LevelDat.FromArguments | fast_world_creator/new_world/level_dat.py:163-176 | succeeds exactly when merge and binding succeed; gives a fresh gzipped file whose unnamed root holds only `Data` = the bound level data |
| LevelDat.FromTemplate | fast_world_creator/new_world/level_dat.py:163-176 | the same, for any template |
| WorldCreator.DigestSeed | fast_world_creator/new_world/world_creator.py:25 | `int(hexdigest[:7], 16)` is below 16^7 |
| WorldCreator.HexDigestIsHex | fast_world_creator/new_world/world_creator.py:25 | the hex digest consists of hex digits only |
| WorldCreator.DeriveSeedSpec | fast_world_creator/new_world/world_creator.py:17-25 | a falsy seed is the draw in [0, 1000000]; a nonzero int is kept; a numeric text is its integer; any other text is the 7-digit MD5 prefix, below 16^7 |
| WorldCreator.TextSeedOfNumber | fast_world_creator/new_world/world_creator.py:20-22 | a text spelling an integer gives exactly that integer, `"0"` included |
| WorldCreator.WorldCreator.constructor | fast_world_creator/new_world/world_creator.py:14-27 | keeps release and name, derives the seed, and sets `w_dir` to `<mc>/saves/<name>` |
| WorldCreator.MkdirResult | fast_world_creator/new_world/world_creator.py:36-53 | `mkdir` succeeds exactly when nothing is at the path and its parent directory exists |
| WorldCreator.SaveResult | fast_world_creator/new_world/world_creator.py:151 | opening a file for writing succeeds exactly when the path is not a directory and its parent exists |
| WorldCreator.Disk.constructor | fast_world_creator/new_world/world_creator.py:37-40 | the disk starts with the given directories and no written files |
| WorldCreator.Disk.Mkdir | fast_world_creator/new_world/world_creator.py:40 | returns the `mkdir` outcome; only on success the directory is added; files are unchanged |
| WorldCreator.Disk.Save | fast_world_creator/new_world/world_creator.py:151 | on success the file holds the root compound; directories are unchanged |
| WorldCreator.WorldDirectoryOutcome | fast_world_creator/new_world/world_creator.py:36-44 | the target is the name when it is free, and exactly the name with the seed appended (a different path) when it is taken; if both are taken `FileExistsError` is raised |
| WorldCreator.WorldCreator.CreateWorldDirectory | fast_world_creator/new_world/world_creator.py:29-44 | `w_dir` becomes the target; returns it and creates it, or the error and creates nothing |
| WorldCreator.WorldCreator.CreateDatapackDirectory | fast_world_creator/new_world/world_creator.py:46-53 | creates `<w_dir>/datapacks` with the `mkdir` outcome |
| WorldCreator.DatapackDirectoryNeedsWorld | fast_world_creator/new_world/world_creator.py:46-53 | the datapacks folder's parent is `w_dir`; it fails with FileNotFound while `w_dir` does not exist and succeeds once it does |
| WorldCreator.DatapackAddresses | fast_world_creator/new_world/world_creator.py:90 | one `file/<d>.zip` per enabled pack, in input order |
| WorldCreator.DifficultyFields | fast_world_creator/new_world/world_creator.py:93-95 | the dict exists exactly for difficulty 0..4; `Difficulty` = min(d, 3); `hardcore` = 1 exactly when d = 4; `generatorName` is the lower-cased generator, while the `generatorOptions` test (GeneratorOptionsPresence) compares the name as given |
| WorldCreator.WeatherFields | fast_world_creator/new_world/world_creator.py:98-99 | thunder forces rain; `thundering` is truthy exactly when the argument is; otherwise `raining` is the argument and `thundering` false |
| WorldCreator.DatapackAndBorderFields | fast_world_creator/new_world/world_creator.py:89-107 | `DataPacks` enables the addresses and disables none; an integer lerp time becomes 600 times as many ticks |
| WorldCreator.VersionField | fast_world_creator/new_world/world_creator.py:83-86 | `Version` holds the mapped `Id` (None when unmapped) and the release name |
| WorldCreator.LayersSpec | fast_world_creator/new_world/world_creator.py:134-139 | one `{block: "minecraft:"+layer[1], height: str(layer[0])}` per layer, in order |
| WorldCreator.GeneratorLayers | fast_world_creator/new_world/world_creator.py:134-139 | the loop fails with IndexError exactly when a layer has fewer than two parts, else gives the layers' dicts |
| WorldCreator.GeneratorOptionsPresence | fast_world_creator/new_world/world_creator.py:111-146 | `generatorOptions` is added, last, exactly when the generator is exactly `buffet` or `flat`, with the buffet or flat dict |
| WorldCreator.LevelDatArgsDefined | fast_world_creator/new_world/world_creator.py:93-146 | the dict is built exactly for difficulty 0..4, options present for buffet and flat, and well-formed layers for flat |
| WorldCreator.LayerBinds | fast_world_creator/new_world/level_dat.py:86-89 | one layer dict parses to a compound that the layers schema accepts |
| WorldCreator.LayersBind | fast_world_creator/new_world/level_dat.py:86-89 | the whole layer list parses and is accepted item by item |
| WorldCreator.FlatOptionsParse | fast_world_creator/new_world/world_creator.py:141-145 | the flat options parse to `biome`, `layers`, `structures`, in that order, exactly when the structures parse |
| WorldCreator.FlatOptionsRejectedAsWritten | fast_world_creator/new_world/level_dat.py:70-90 | the schema table as written rejects every flat options dict at its `biome` key (Findings) |
| WorldCreator.FlatOptionsBind | fast_world_creator/new_world/world_creator.py:141-145 | with `biome` declared, the flat options bind to the strict `generatorOptions` schema |
| WorldCreator.StructuresBind | fast_world_creator/new_world/level_dat.py:70-90 | a schema declaring `biome`, `layers` and `structures` accepts the parsed flat options |
| WorldCreator.WorldCreator.LevelDatArguments | fast_world_creator/new_world/world_creator.py:82-146 | builds the level data dict and options |
| WorldCreator.WorldCreator.CreateLevelDat | fast_world_creator/new_world/world_creator.py:55-151 | succeeds exactly when the dict is built, binds to the schema and the file can be written; then `<w_dir>/level.dat` holds `Data` = the level data; otherwise nothing is written |
| WorldCreator.SaveLevelDat | fast_world_creator/new_world/world_creator.py:149-151 | `from_arguments` and `save` of any dict, with the same outcome |
| WorldCreator.LevelDatInWorld | fast_world_creator/new_world/world_creator.py:79 | `level.dat` lives in `w_dir`; it can be written once `w_dir` exists and not before |
| FastWorldCreatorApp.GameruleTextSpec | FastWorldCreator.py:228 | `str(v).lower()`: None is `none`, True is `true`, a number its digits, a text lower-cased |
| FastWorldCreatorApp.SentGamerulesSpec | FastWorldCreator.py:225-228 | every game rule is sent once, under its own name, as `str(v).lower()` |
| FastWorldCreatorApp.UpdatedGamerules | FastWorldCreator.py:225-228 | the loop builds that dict |
| FastWorldCreatorApp.Dedup | FastWorldCreator.py:219-220 | the first-occurrence key list has exactly the keys of the input |
| FastWorldCreatorApp.DedupDistinct | FastWorldCreator.py:219-220 | those keys are pairwise distinct |
| FastWorldCreatorApp.FillKeysKeys | FastWorldCreator.py:219-228 | a dict filled key by key has the distinct keys in first-occurrence order |
| FastWorldCreatorApp.FillKeysGet | FastWorldCreator.py:219-228 | every key holds its value |
| FastWorldCreatorApp.ParseFlatLayers | FastWorldCreator.py:200-207 | the loop yields one layer per comma-separated piece |
| FastWorldCreatorApp.LayersOfSpec | FastWorldCreator.py:200-207 | one layer per piece, in order; a piece without `*` is the block with height 1; a piece with `*` is its `split("*")`, count first |
| FastWorldCreatorApp.CheckedSpec | FastWorldCreator.py:211 | a checkbox filter fails exactly on a missing key; otherwise it keeps, in order, exactly the items whose box is truthy |
| FastWorldCreatorApp.ParseGeneratorOptionsSpec | FastWorldCreator.py:209-221 | fluid `water` exactly when truthy, else `lava`; type names lower-cased; the biomes are the checked sublist; layers as parsed; one None-valued structure per distinct piece |
| FastWorldCreatorApp.IndexOf | FastWorldCreator.py:236-239 | `list.index` gives the first position of the value, and none when absent |
| FastWorldCreatorApp.LabelIndex | FastWorldCreator.py:16-23 | picking a difficulty's label gives back that difficulty's value |
| FastWorldCreatorApp.RunArgsSpec | FastWorldCreator.py:229-243 | the release is installed and its path passed; spaces become underscores; difficulty and game mode are label indices; packs are the checked ones in order; the generator is lower-cased; rain comes from `rain` |
| FastWorldCreatorApp.ReleaseMissing | FastWorldCreator.py:230-233 | an uninstalled release raises KeyError before anything else |
| FastWorldCreatorApp.RunArgsThunder | FastWorldCreator.py:243 | the thunder flag is whatever value the key read holds |
| FastWorldCreatorApp.ThunderIgnoredAsWritten | FastWorldCreator.py:243 | as written, thunder is read from a key the form never fills, so `level.dat` always has `thundering` false (Findings) |
| FastWorldCreatorApp.ThunderKept | FastWorldCreator.py:243 | reading `thundering` passes the checkbox on, and a checked box gives a thundering, raining world |
| FastWorldCreatorApp.Create | FastWorldCreator.py:224-244 | `create` builds the game rules and then the corrected run arguments |
| Datapacks.PackFolder.constructor | fast_world_creator/datapacks/datapack_base.py:100-102 | the folder starts with the given files |
| Datapacks.GeneratedOrder | fast_world_creator/datapacks/datapack_base.py:35-48 | generation puts recipes, functions, advancements and others in that order; recipes begin with the shaped ones and end with stonecutting; the base hooks generate nothing |
| Datapacks.Datapack.constructor | fast_world_creator/datapacks/datapack_base.py:9-13 | a pack has its class name and description and an empty entry list |
| Datapacks.Datapack.AddDatapackFile | fast_world_creator/datapacks/datapack_base.py:59-63 | exactly one entry is appended at the end |
| Datapacks.Datapack.AddRecipeFile | fast_world_creator/datapacks/datapack_base.py:65-69 | appends at `data/<name>/recipes/<n>.json` |
| Datapacks.Datapack.AddAdvancement | fast_world_creator/datapacks/datapack_base.py:71-75 | appends the advancement's own path and data |
| Datapacks.Datapack.AddAdvancementFile | fast_world_creator/datapacks/datapack_base.py:77-81 | appends at `data/<name>/advancements/<group>/<n>.json` |
| Datapacks.Datapack.AddAll | fast_world_creator/datapacks/datapack_base.py:104-123 | a hook's entries are appended in order |
| Datapacks.Datapack.Store | fast_world_creator/datapacks/datapack_base.py:83-102 | True exactly when writing succeeds, never raising; then `datapacks/<name>.zip` holds the entries in list order |
| Datapacks.Datapack.CreateDatapackFiles | fast_world_creator/datapacks/datapack_base.py:19-33 | the manifest with `pack_format` 1 first, then the generated entries in order, then `store`'s result |
| Datapacks.Datapack.CreateRecipes | fast_world_creator/datapacks/datapack_base.py:41-48 | shaped, shapeless, smelting, smoking, blasting, campfire, stonecutting |
| Datapacks.MinimalDatapack.constructor | fast_world_creator/datapacks/base_datapack.py:3-8 | empty name and description, no entries, enabled by default |
| Datapacks.MinimalDatapack.Call | fast_world_creator/datapacks/base_datapack.py:10-11 | calling a pack gives the same pack |
| Datapacks.MinimalDatapack.CreateDatapackFiles | fast_world_creator/datapacks/base_datapack.py:13-21 | the base hooks and `store` change nothing |
| RandomLoot.Swap | fast_world_creator/datapacks/random_loot.py:92 | an exchange keeps the length |
| RandomLoot.SwapMultiset | fast_world_creator/datapacks/random_loot.py:92 | an exchange keeps the multiset |
| RandomLoot.ShuffleDownPermutes | fast_world_creator/datapacks/random_loot.py:92 | the swap sequence keeps length and multiset |
| RandomLoot.ShuffledPermutes | fast_world_creator/datapacks/random_loot.py:91-92 | the shuffled list is a permutation of the file list |
| RandomLoot.Shuffle | fast_world_creator/datapacks/random_loot.py:91-92 | the array in place becomes the seeded shuffle of its old contents |
| RandomLoot.LootTableNamesSpec | fast_world_creator/datapacks/random_loot.py:59-61 | exactly the names under `data/minecraft/loot_tables` are kept |
| RandomLoot.LootEntries | fast_world_creator/datapacks/random_loot.py:93-99 | one entry per pair, with the path and the paired file's content |
| RandomLoot.LootAssignment | fast_world_creator/datapacks/random_loot.py:84-99 | the entries' paths are the walked list in order, and their contents come from a permutation of that list |
| RandomLoot.RandomLootDataPack.constructor | fast_world_creator/datapacks/random_loot.py:15-19 | named `random_loot`, "Loot table randomizer", disabled by default, no entries |
| RandomLoot.RandomLootDataPack.ExtractLootTables | fast_world_creator/datapacks/random_loot.py:48-68 | fails exactly when the version has no jar path or an empty one; otherwise extracts exactly the loot-table names |
| RandomLoot.RandomLootDataPack.AddLootTables | fast_world_creator/datapacks/random_loot.py:70-99 | appends each walked path with the content of its partner in the shuffled copy |
| RandomLoot.RandomLootDataPack.AddPairs | fast_world_creator/datapacks/random_loot.py:93-99 | the `zip` loop appends one entry per pair, in order |
| RandomLoot.RandomLootDataPack.CreateFiles | fast_world_creator/datapacks/random_loot.py:21-46 | the manifest with `pack_format` 5 first; False with only the manifest when the version is missing, else True with the loot entries |
| RandomLoot.RandomLootDataPack.Store | fast_world_creator/datapacks/random_loot.py:101-111 | `datapacks/random_loot.zip` holds one archive entry per list element, in order; a write failure raises |
| RandomLoot.RandomLootDataPack.CreateDatapackFiles | fast_world_creator/datapacks/base_datapack.py:13-15 | the entries above, then `store`, which writes even when the version was missing |
| ExternalDatapacks.ExternalNameSpec | fast_world_creator/datapacks/external_datapack.py:11 | the name has no `/`, starts the last path segment, does not end in `.`, `z`, `i` or `p`, and everything cut off is such a character |
| ExternalDatapacks.ExternalNameStripsCharacters | fast_world_creator/datapacks/external_datapack.py:11 | the strip removes characters, not the suffix: `hip.zip` names the pack `h` |
| ExternalDatapacks.ExternalNameOfListed | fast_world_creator/datapacks/external_datapack.py:11 | the name of a listed archive depends on its file name alone |
| ExternalDatapacks.ExternalDatapack.constructor | fast_world_creator/datapacks/external_datapack.py:9-13 | the derived name, the path unchanged, "Found in assets/datapacks", enabled, no entries |
| ExternalDatapacks.ExternalDatapack.Store | fast_world_creator/datapacks/external_datapack.py:15-17 | the archive is copied into `datapacks` under its own file name; a failed copy raises |
| ExternalDatapacks.ExternalDatapack.CreateDatapackFiles | fast_world_creator/datapacks/base_datapack.py:13-17 | no entries are added; then the copy |
| DatapackUtils.ShapedCraftingRecipe | fast_world_creator/datapacks/datapack_utils.py:17-26 | a shaped recipe has `type`, `pattern`, `key` and `result`, in that order |
| DatapackUtils.ShapedAgreesWithElements | fast_world_creator/datapacks/datapack_utils.py:17-26 | it gives every key the same value as the element `ShapedCraftingRecipe` without a group: type, pattern and key passed through, result `{item, count}` |
| DatapackUtils.ShapelessCraftingRecipe | fast_world_creator/datapacks/datapack_utils.py:29-37 | a shapeless recipe has `type`, `ingredients` and `result` |
| DatapackUtils.ShapelessAgreesWithElements | fast_world_creator/datapacks/datapack_utils.py:29-37 | the same agreement for shapeless recipes: one `{item}` ingredient per item, in order |
| DatapackUtils.FurnaceRecipe | fast_world_creator/datapacks/datapack_utils.py:40-47 | a cooking recipe has `type`, `ingredient`, `result`, `experience` and `cookingtime` |
| DatapackUtils.FurnaceRecipeSpec | fast_world_creator/datapacks/datapack_utils.py:40-47 | the type is as given, the ingredient list is one `{item}` per item, and result, xp and time are passed through |
| DatapackUtils.FurnaceDefaults | fast_world_creator/datapacks/datapack_utils.py:50-62 | smelting defaults to time 200, smoking and blasting to 100, all three to xp 0.1 |
| DatapackUtils.PrefixCharsOfLootTables | fast_world_creator/datapacks/datapack_utils.py:70-73 | the first 15 characters of the loot-table prefix are in the strip set and the 16th, `l`, is not |
| DatapackUtils.LStripAfter | fast_world_creator/datapacks/datapack_utils.py:73 | a character strip stops at the first character outside the set |
| DatapackUtils.LStripLootTable | fast_world_creator/datapacks/datapack_utils.py:70-73 | for a loot-table name the strip removes exactly `data/minecraft/` |
| DatapackUtils.ExtractedSpec | fast_world_creator/datapacks/datapack_utils.py:65-79 | the extracted names are those the random-loot filter keeps, each written at the name minus its first 15 characters |
| DatapackUtils.ExtractLootTables | fast_world_creator/datapacks/datapack_utils.py:65-79 | the loop writes exactly those files |
| DatapackUtils.ExternalsSpec | fast_world_creator/datapacks/datapack_utils.py:96-99 | no more packs than listed names; every listed name ending in `.zip` gives a pack, and every pack comes from such a name |
| DatapackUtils.ExternalsCount | fast_world_creator/datapacks/datapack_utils.py:96-99 | each name ending in `.zip` gives exactly as many packs as it is listed, any other name none |
| DatapackUtils.ExternalsConcat | fast_world_creator/datapacks/datapack_utils.py:96-99 | the packs of two listings in a row are those of each, in listing order |
| DatapackUtils.GetAvailableDatapacks | fast_world_creator/datapacks/datapack_utils.py:89-100 | the three built-in packs in fixed order, then the listed archives' packs, in listing order |
| DatapackUtils.ExternalPackName | fast_world_creator/datapacks/datapack_utils.py:95-98 | a listed archive's pack is named by its file name stripped of `.zip` characters |
| Elements.ElementPath | datapack_creator/elements/base_element.py:6-7 | `data/<datapack_name>`, which depends on the namespace alone |
| Elements.Repeat | datapack_creator/elements/item.py:14-17 | `[name] * n` holds n copies of the name, none for n <= 0 |
| Elements.RepeatConcat | datapack_creator/elements/item.py:14-17 | two such lists added together keep both parts in order |
| Elements.ItemIngredient | datapack_creator/elements/item.py:7-12 | `{item}`, plus `nbt` exactly when it is non-empty |
| Elements.ItemMulSpec | datapack_creator/elements/item.py:14-18 | an item times an int is that many copies; a bool counts as 0 or 1; anything else gives the item itself |
| Elements.TagIngredient | datapack_creator/elements/tag.py:6-8 | `{tag: name}` |
| Elements.TagMulSpec | datapack_creator/elements/tag.py:10-14 | a tag times an exact int is that many copies; times anything else, `True` included, the tag itself, while an item times `True` is one copy |
| Elements.RecipePathSpec | datapack_creator/elements/recipes/base_recipe.py:15-32 | the path is `data/<ns>/recipes/<name>.json` under the element path, its last segment the file name, and `str(recipe)` is `<ns>:<name>` |
| Elements.IngredientList | datapack_creator/elements/recipes/recipe_crafting_shapeless.py:14 | one `{item: i}` per ingredient, same length and order |
| Elements.BaseDataSpec | datapack_creator/elements/recipes/base_recipe.py:18-26 | `to_data` starts from `type` and the text `result`, then `group` only when one is set |
| Elements.ShapedDataSpec | datapack_creator/elements/recipes/recipe_crafting_shaped.py:13-21 | shaped type; `result` replaced in place by `{item, count}`; `pattern` and `key` appended unchanged |
| Elements.ShapelessDataSpec | datapack_creator/elements/recipes/recipe_crafting_shapeless.py:12-19 | shapeless type; `result` becomes `{item, count}`; `ingredients` is one `{item}` per input |
| Elements.CookingDataSpec | datapack_creator/elements/recipes/base_cooking_recipe.py:12-17 | the text `result` and the class's type stay; `ingredient` unchanged; `experience` only when xp is truthy; `time` only when truthy, under key `time` |
| Elements.StonecuttingDataSpec | datapack_creator/elements/recipes/recipe_stonecutting.py:12-14 | stonecutting type; `result` stays the text output; `ingredient` and `count` appended |
| Elements.RecipeDefaults | datapack_creator/elements/recipes/recipe_smelting.py:7-9 | count 1 for shaped, shapeless and stonecutting; smelting time 200; blasting, campfire and the base 100; xp 0.1; type per class, None for the base |
| Advancements.SplitNameSpec | fast_world_creator/minecraft/advancements.py:40-41 | the name is the last segment; the group is the text before it, else the parent's non-empty group, else the argument; only a missing parent without `/` fails |
| Advancements.AdvancementId | fast_world_creator/minecraft/advancements.py:59-60 | `str(adv)` contains the namespace separator |
| Advancements.IdAndPathSpec | fast_world_creator/minecraft/advancements.py:59-60 | the id is `<ns>:<group>/<name>` and the path `data/<ns>/advancements/<group>/<name>.json`; both end in the name |
| Advancements.DisplayTagSpec | fast_world_creator/minecraft/advancements.py:111-121 | `display` has icon, title, frame, description, hidden in order, then background only when truthy |
| Advancements.RootTagSpec | fast_world_creator/minecraft/advancements.py:126-136 | `to_data` has display and criteria always; parent, requirements and rewards only when set, each in its place |
| Advancements.ToDataSpec | datapack_creator/elements/advancements/advancement.py:106-116 | the same layout for an advancement object, with the parent's id text |
| Advancements.LinkedParentAppears | fast_world_creator/minecraft/advancements.py:126-136 | a parent given to the constructor appears as the second key, as its id |
| Advancements.Advancement.constructor | datapack_creator/elements/advancements/advancement.py:12-36 | the split name and group, the namespace argument, icon `{item}` plus `nbt` when set, and the other arguments |
| Advancements.Advancement.SetFrame | fast_world_creator/minecraft/advancements.py:62-64 | returns self and changes only the frame |
| Advancements.Advancement.SetIcon | fast_world_creator/minecraft/advancements.py:66-68 | returns self and changes only the icon |
| Advancements.Advancement.SetIconItem | fast_world_creator/minecraft/advancements.py:70-72 | sets the icon's `item` only |
| Advancements.Advancement.SetIconNbt | fast_world_creator/minecraft/advancements.py:74-76 | sets the icon's `nbt` only |
| Advancements.Advancement.SetTitle | fast_world_creator/minecraft/advancements.py:78-80 | returns self and changes only the title |
| Advancements.Advancement.SetBackground | fast_world_creator/minecraft/advancements.py:82-84 | returns self and changes only the background |
| Advancements.Advancement.SetDescription | fast_world_creator/minecraft/advancements.py:86-88 | returns self and changes only the description |
| Advancements.Advancement.SetIsHidden | fast_world_creator/minecraft/advancements.py:90-92 | returns self and changes only `hidden` |
| Advancements.Advancement.SetParent | fast_world_creator/minecraft/advancements.py:94-97 | stores the parent's id text and copies its group; the id is never empty, so the `"root"` fallback is unreachable |
| Advancements.Advancement.SetCriteria | fast_world_creator/minecraft/advancements.py:99-101 | returns self and changes only the criteria |
| Advancements.Advancement.SetRequirements | fast_world_creator/minecraft/advancements.py:103-105 | returns self and changes only the requirements |
| Advancements.Advancement.SetRewards | fast_world_creator/minecraft/advancements.py:107-109 | returns self and changes only the rewards |
| CreatorDatapacks.CreatorDatapack.constructor | datapack_creator/elements/datapacks/base_datapack.py:16-19 | the namespace is the class name and the entry list is empty |
| CreatorDatapacks.CreatorDatapack.Path | datapack_creator/elements/base_element.py:6-7 | the pack's element path `data/<namespace>` |
| CreatorDatapacks.CreatorDatapack.AddDatapackFile | datapack_creator/elements/datapacks/base_datapack.py:65-69 | appends one entry at `data/<ns>/<path_in_dp>` |
| CreatorDatapacks.CreatorDatapack.AddRecipeFile | datapack_creator/elements/datapacks/base_datapack.py:71-75 | appends at `data/<ns>/recipes/<n>.json` |
| CreatorDatapacks.CreatorDatapack.AddAdvancement | datapack_creator/elements/datapacks/base_datapack.py:77-81 | appends exactly one entry with the advancement's own path and data |
| CreatorDatapacks.CreatorDatapack.AddAll | datapack_creator/elements/datapacks/base_datapack.py:104-123 | a hook's entries are appended in order |
| CreatorDatapacks.CreatorDatapack.Store | datapack_creator/elements/datapacks/base_datapack.py:83-102 | True exactly when writing succeeds, False on any error; then the archive holds the entries in order |
| CreatorDatapacks.CreatorDatapack.CreateDatapackFiles | datapack_creator/elements/datapacks/base_datapack.py:25-45 | the manifest with `pack_format` 5 first, then the generated entries in order, then `store`'s result |
| CreatorDatapacks.CreatorDatapack.CreateRecipes | datapack_creator/elements/datapacks/base_datapack.py:47-54 | the recipe hooks in their fixed order |

## Left out

- The window, its layout and its event loop (FastWorldCreator.py outside
  `parse_generator_options` and `create`, `fast_world_creator/ui`,
  `launch_gui.py`) are GUI code. The form's values are a map given to
  `create`.
- `core.run` and `common_utils` (changing the working directory,
  `config.ini`, finding installed versions) are left out. The working
  directory, the installed versions and `version_map` are parameters.
  `core.run` never passes `border_settings`, which `create_level_dat`
  dereferences. The model therefore takes the border settings as given.
- The data catalogs are left out: `more_advancements`, `convenient_crafting`,
  `McAdvancements` and the `AG_*` groups. They are literal records, and some
  of them call members the shown bases do not define.
- `GameModes` and `GeneratorNames`, which FastWorldCreator.py:24-25 import
  from `minecraft_utils`, are not part of this model. The game-mode labels
  are a parameter.
- The library internals are abstracted: NBT binary encoding, gzip, ZIP
  writing and `json.dumps` text. A dumped value is kept as the value it
  encodes. A written archive is the list of its entries.
- Schema coercion is modelled only on the types these tables use. The
  floating-point border values and recipe xp are exact reals or opaque
  values. `BorderSizeLerpTime` is stated for whole seconds only.
- MD5 is a function parameter returning 16 bytes; its hex digest is
  modelled. `random.randint` is a parameter in [0, 1000000].
  `random.seed`/`random.shuffle` is Fisher–Yates over a draw function. The
  draw function is a parameter, not Python's Mersenne Twister.
- Real disk effects are abstracted: `mkdir`, ZIP writing, `shutil.copy`,
  the extraction of loot tables to disk, and the `rmtree` cleanups. So is
  `delete_loot_tables`, which only removes a folder. Directories are a set,
  written files a map, and "can this file be written" is a flag.
- `os.walk` order, file reading, jar name lists and `os.listdir` are
  parameters. Paths use `/`, where the source writes `os.sep`.
- `needs_loot_tables` is not modelled: it is a constant `False` that nothing
  in the core reads.
- The UI's sort of the available packs by name (FastWorldCreator.py:22) is
  not modelled. `GetAvailableDatapacks` gives the list before sorting. Pack
  classes in that list are tags (`Available`), and an external pack is given
  by its path.
- `str(item)` and `str(tag)` are the `name` field of `Item` and `Tag`, with
  no separate function.
- The promise that the same seed and the same file list give the same
  assignment has no lemma of its own. The shuffle is a function of its
  inputs, so it holds by construction.
- LevelDat.TemplateKeysDeclared: the template's keys are each declared.
  That they are pairwise distinct is assumed of the literal and not proved.
- Recipes of the element hierarchy: the namespace is fixed to `minecraft`,
  the default, since no recipe class changes it.
- `to_data` of recipes and advancements builds a fresh dict in the source;
  the model computes the same dict as a function value.
- LevelDat.LevelDataFields: its `generatorOptions` entry uses the corrected
  table with `biome` (see Findings), not the table of level_dat.py:70-90 as
  written, which rejects every superflat world.
- LevelDat.FromArguments: binds with the corrected `generatorOptions` table,
  so a superflat world binds where the source as written raises.
- LevelDat.FromTemplate: the same corrected table as `FromArguments`.
- WorldCreator.SaveLevelDat: saves through the corrected table, so a
  superflat world is saved where the source as written raises.
- WorldCreator.WorldCreator.CreateLevelDat: the same corrected table as
  `SaveLevelDat`.
- FastWorldCreatorApp.Create: passes the thunder checkbox read under its own
  key `thundering` (see Findings). As written, FastWorldCreator.py:243 reads
  `thunder`, which is always None, so the model does not describe that run.
- PyStr.Lower: folds only the ASCII letters `A`-`Z`. Python's `str.lower()`
  folds every Unicode letter. `GameruleText` and the lowering of the buffet
  biome type and chunk type inherit this.
- PyStr.ParseInt: accepts only the ASCII digits and the ASCII whitespace.
  Python's `int()` also takes other Unicode decimal digits and whitespace, so
  a seed text such as `١٢` takes the digest path in `DeriveSeed`, where the
  source gives 12. `IntOf`, `DeriveSeed`, `TextSeedOfNumber` and the string
  case of `LevelDat.IntOf` inherit this.
- FastWorldCreatorApp.ParseGeneratorOptions: assumes `buffet_block` and
  `flat_biome` are texts and fails at once when they are not. The source
  stores any value and fails later, with a TypeError, and only for a buffet
  or superflat world. The form's combo boxes always give texts.
- The literal parser's fallback, which turns an integer too wide for an int
  tag into a string, and `int()` of a string tag in a numeric cast, are
  library behaviour outside these sources. `float()` of a string tag in a
  Double cast is not modelled. It fails there.
- LevelDat.Cast: a String cast accepts only a string tag and gives
  `BadCast` for any other value. nbtlib's `String(x)` turns any value into
  its text. No path of the core casts a non-string value to String.
- FastWorldCreatorApp.IntOf: the buffet size is read as an integer, and
  `buffetSize` in `GeneratorOpts` is an `int`. The form's slider returns a
  float, and world_creator.py:116 passes it on unchanged, so a fractional
  size is not modelled.

## Findings

| source | as written | input that shows it | evidently intended | confidence | as-written member | corrected member |
|---|---|---|---|---|---|---|
| FastWorldCreator.py:243 | `thundering=values.get("thunder")` reads a key the form never sets; the checkbox is keyed `"thundering"` (line 83) | any form with the thunder box checked: `values["thundering"] = True`, no `"thunder"` key | the thunder flag comes from `values.get("thundering")`, so a checked box makes a thundering (and raining) world | high, not executed | FastWorldCreatorApp.ThunderIgnoredAsWritten | FastWorldCreatorApp.ThunderKept |
| fast_world_creator/new_world/level_dat.py:70-90 | `generator_options_dict` has no `biome` entry, yet the strict `generatorOptions` schema receives the flat options, whose `biome` world_creator.py:142 always writes | generator `"flat"` with any flat options | the schema declares `biome` as a String, so superflat worlds can be created | medium, not executed | WorldCreator.FlatOptionsRejectedAsWritten | WorldCreator.FlatOptionsBind |
