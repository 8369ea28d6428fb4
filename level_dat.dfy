/**
 * The level.dat schema of fast_world_creator/new_world/level_dat.py and
 * `LevelFile.from_arguments`.
 *
 * The merged dictionary goes through `json.dumps`, the NBT literal parser and
 * the `LevelData` schema. Here that is two stages over an NBT tag tree:
 * `Infer` gives the tag the literal parser produces for a value, `Cast` is
 * the schema's coercion of a tag to a declared type.
 */
module LevelDat {
  import opened Wrappers
  import opened Json
  import LevelDatUtils
  import opened PyStr

  /** The declared tag types the schemas use; `Schema` is a compound with
      typed keys, strict when no other key is allowed. */
  datatype TagType =
    | Byte
    | Int
    | Long
    | Double
    | String
    | List(elem: TagType)
    | Compound
    | Schema(name: string, fields: seq<(string, TagType)>, strict: bool)

  /** An NBT value. */
  datatype Tag =
    | TByte(i: int)
    | TInt(i: int)
    | TLong(i: int)
    | TDouble(r: real)
    | TString(s: string)
    | TList(items: seq<Tag>)
    | TCompound(entries: seq<(string, Tag)>)

  datatype LevelError =
    | UnknownKey(key: string)   // a strict schema meets a key it does not declare
    | BadCast(key: string)      // a value of the key cannot become the declared type
    | OutOfRange                // an integer outside its tag's width
    | MixedList                 // a list literal whose items are of different tags
    | NotSubscriptable          // `Version` is not a dict, so `["Id"]` raises
    | MissingKey(key: string)   // a dict lookup that raises `KeyError`

  const ByteMin: int := -128
  const ByteMax: int := 127
  const IntMin: int := -0x8000_0000
  const IntMax: int := 0x7FFF_FFFF
  const LongMin: int := -0x8000_0000_0000_0000
  const LongMax: int := 0x7FFF_FFFF_FFFF_FFFF

  /** The declared type of a key in a schema's table. */
  function FieldType(fs: seq<(string, TagType)>, k: string): (r: Option<TagType>)
    ensures r.None? <==> forall i :: 0 <= i < |fs| ==> fs[i].0 != k
    ensures r.Some? ==> exists i :: 0 <= i < |fs| && fs[i] == (k, r.value)
  {
    if |fs| == 0 then None
    else if fs[0].0 == k then assert fs[0] == (k, fs[0].1); Some(fs[0].1)
    else
      var r := FieldType(fs[1..], k);
      assert r.Some? ==> exists i :: 1 <= i < |fs| && fs[i] == (k, r.value) by {
        if r.Some? {
          var i :| 0 <= i < |fs[1..]| && fs[1..][i] == (k, r.value);
          assert fs[i + 1] == (k, r.value);
        }
      }
      r
  }

  /** The type of the first entry named `k` is the type found for `k`. */
  lemma {:induction false} FieldTypeAt(fs: seq<(string, TagType)>, i: nat, k: string)
    requires i < |fs| && fs[i].0 == k
    requires forall j :: 0 <= j < i ==> fs[j].0 != k
    ensures FieldType(fs, k) == Some(fs[i].1)
  {
    if i > 0 {
      FieldTypeAt(fs[1..], i - 1, k);
    }
  }

  lemma FieldDeclared(fs: seq<(string, TagType)>, i: nat, k: string)
    requires i < |fs| && fs[i].0 == k
    ensures FieldType(fs, k).Some?
  {
  }

  // ----- the schema tables -----

  function XyzFields(): seq<(string, TagType)> {
    [("X", Byte), ("Y", Byte), ("Z", Byte)]
  }

  function DragonFightFields(): seq<(string, TagType)> {
    [
      ("ExitPortalLocation", Schema("ExitPortalLocation", XyzFields(), false)),
      ("Gateways", List(Int)),
      ("DragonKilled", Byte),
      ("DragonUUIDLeast", Long),
      ("DragonUUIDMost", Long),
      ("PreviouslyKilled", Byte)
    ]
  }

  function DimensionDataFields(): seq<(string, TagType)> {
    [("1", Schema("EndData", [("DragonFight", Schema("DragonFight", DragonFightFields(), false))], false))]
  }

  /** `game_rule_dict`: every rule as a string. The level schema types
      `GameRules` as a plain compound, so this table is not consulted there. */
  function GameRuleFields(): seq<(string, TagType)> {
    [
      ("announceAdvancements", String),
      ("commandBlockOutput", String),
      ("disableElytraMovementCheck", String),
      ("disableRaids", String),
      ("doDaylightCycle", String),
      ("doEntityDrops", String),
      ("doFireTick", String),
      ("doInsomnia", String),
      ("doImmediateRespawn", String),
      ("doLimitedCrafting", String),
      ("doMobLoot", String),
      ("doMobSpawning", String),
      ("doPatrolSpawning", String),
      ("doTileDrops", String),
      ("doTraderSpawning", String),
      ("doWeatherCycle", String),
      ("drowningDamage", String),
      ("fallDamage", String),
      ("fireDamage", String),
      ("keepInventory", String),
      ("logAdminCommands", String),
      ("maxCommandChainLength", String),
      ("maxEntityCramming", String),
      ("mobGriefing", String),
      ("naturalRegeneration", String),
      ("randomTickSpeed", String),
      ("reducedDebugInfo", String),
      ("sendCommandFeedback", String),
      ("showDeathMessages", String),
      ("spawnRadius", String),
      ("spectatorsGenerateChunks", String)
    ]
  }

  function VersionFields(): seq<(string, TagType)> {
    [("Id", Int), ("Name", String), ("Snapshot", Byte)]
  }

  function DataPacksFields(): seq<(string, TagType)> {
    [("Enabled", List(String)), ("Disabled", List(String))]
  }

  /** `generator_options_dict` as written: it declares no `biome`, the key
      the superflat options carry. */
  function GeneratorOptionsFieldsAsWritten(): seq<(string, TagType)> {
    [
      ("biome_source", Schema("biome_sources", [
        ("options", Schema("biome_source_options", [("biomes", List(String)), ("size", Byte)], false)),
        ("type", String)], false)),
      ("chunk_generator", Schema("chunk_generator", [
        ("options", Schema("chunk_generator_options", [("default_block", String), ("default_fluid", String)], false)),
        ("type", String)], false)),
      ("structures", Compound),
      ("layers", List(Schema("layers", LayerFields(), false)))
    ]
  }

  function LayerFields(): seq<(string, TagType)> {
    [("block", String), ("height", String)]
  }

  /** The generator options schema with the superflat `biome` declared as a
      string; the level data schema uses this one. */
  function GeneratorOptionsFields(): seq<(string, TagType)> {
    GeneratorOptionsFieldsAsWritten() + [("biome", String)]
  }

  /** `level_data_dict`, in the source's order. */
  function LevelDataFields(): seq<(string, TagType)> {
    [
      ("allowCommands", Byte),
      ("BorderCenterX", Double),
      ("BorderCenterZ", Double),
      ("BorderDamagePerBlock", Double),
      ("BorderSafeZone", Double),
      ("BorderSize", Double),
      ("BorderSizeLerpTarget", Double),
      ("BorderSizeLerpTime", Long),
      ("BorderWarningBlocks", Double),
      ("BorderWarningTime", Double),
      ("clearWeatherTime", Int),
      ("DataPacks", Schema("DataPacks", DataPacksFields(), true)),
      ("DataVersion", Int),
      ("DayTime", Long),
      ("Difficulty", Byte),
      ("DifficultyLocked", Byte),
      ("DimensionData", Schema("DimensionData", DimensionDataFields(), true)),
      ("GameRules", Compound),
      ("GameType", Int),
      ("generatorName", String),
      ("generatorOptions", Schema("generatorOptions", GeneratorOptionsFields(), true)),
      ("generatorVersion", Int),
      ("hardcore", Byte),
      ("initialized", Byte),
      ("LastPlayed", Long),
      ("LevelName", String),
      ("MapFeatures", Byte),
      ("Player", Compound),
      ("raining", Byte),
      ("rainTime", Int),
      ("RandomSeed", Long),
      ("SizeOnDisk", Long),
      ("SpawnX", Int),
      ("SpawnY", Int),
      ("SpawnZ", Int),
      ("thundering", Byte),
      ("thunderTime", Int),
      ("Time", Long),
      ("version", Int),
      ("Version", Schema("Version", VersionFields(), true))
    ]
  }

  // ----- typing -----

  /** A tag conforms to a declared type; a strict schema admits only its own
      keys, a lax one keeps other keys untouched. */
  predicate HasType(t: Tag, ty: TagType)
    decreases t
  {
    match ty
    case Byte => t.TByte? && ByteMin <= t.i <= ByteMax
    case Int => t.TInt? && IntMin <= t.i <= IntMax
    case Long => t.TLong? && LongMin <= t.i <= LongMax
    case Double => t.TDouble?
    case String => t.TString?
    case List(e) => t.TList? && ItemsHaveType(t.items, e)
    case Compound => t.TCompound?
    case Schema(_, fields, strict) => t.TCompound? && EntriesFit(t.entries, fields, strict)
  }

  predicate ItemsHaveType(items: seq<Tag>, e: TagType)
    decreases items
  {
    |items| == 0 || (HasType(items[0], e) && ItemsHaveType(items[1..], e))
  }

  predicate EntriesFit(es: seq<(string, Tag)>, fields: seq<(string, TagType)>, strict: bool)
    decreases es
  {
    if |es| == 0 then true
    else
      assert es[0] in es;
      assert es[0].1 < es[0];
      (match FieldType(fields, es[0].0)
       case Some(fty) => HasType(es[0].1, fty)
       case None => !strict)
      && EntriesFit(es[1..], fields, strict)
  }

  function EntryKeys(es: seq<(string, Tag)>): (ks: seq<string>)
    ensures |ks| == |es|
    ensures forall i :: 0 <= i < |es| ==> ks[i] == es[i].0
  {
    if |es| == 0 then [] else [es[0].0] + EntryKeys(es[1..])
  }

  // ----- the literal parser: `parse_nbt(json.dumps(v))` -----

  /** The tag the literal parser gives a JSON text: booleans are bytes,
      integers are ints, floats doubles, `null` an unquoted string, lists
      must be of one tag. An integer too wide for an int tag falls back to
      the string of its digits. */
  function Infer(j: Json): Result<Tag, LevelError>
    decreases j
  {
    match j
    case JNull => Ok(TString("null"))
    case JBool(b) => Ok(TByte(if b then 1 else 0))
    case JInt(i) => if IntMin <= i <= IntMax then Ok(TInt(i)) else Ok(TString(IntToString(i)))
    case JReal(r) => Ok(TDouble(r))
    case JStr(s) => Ok(TString(s))
    case JArr(items) =>
      var ts :- InferItems(items);
      if Uniform(ts) then Ok(TList(ts)) else Err(MixedList)
    case JObj(fields) =>
      var es :- InferFields(fields);
      Ok(TCompound(es))
  }

  function InferItems(items: seq<Json>): Result<seq<Tag>, LevelError>
    decreases items
  {
    if |items| == 0 then Ok([])
    else
      var t :- Infer(items[0]);
      var ts :- InferItems(items[1..]);
      Ok([t] + ts)
  }

  function InferFields(fs: Fields): (r: Result<seq<(string, Tag)>, LevelError>)
    ensures r.Ok? ==> EntryKeys(r.value) == Keys(fs)
    decreases fs
  {
    if |fs| == 0 then Ok([])
    else
      assert fs[0] in fs;
      assert fs[0].1 < fs[0];
      var t :- Infer(fs[0].1);
      var es :- InferFields(fs[1..]);
      assert Keys(fs) == [fs[0].0] + Keys(fs[1..]);
      Ok([(fs[0].0, t)] + es)
  }

  /** One step of the dict parser: the head value, then the rest. */
  lemma InferFieldsCons(k: string, v: Json, rest: Fields)
    ensures var r := InferFields([(k, v)] + rest);
      (r.Ok? <==> Infer(v).Ok? && InferFields(rest).Ok?)
      && (r.Ok? ==> r.value == [(k, Infer(v).value)] + InferFields(rest).value)
  {
    assert ([(k, v)] + rest)[1..] == rest;
  }

  /** Same tag constructor for every item. */
  predicate SameKind(a: Tag, b: Tag) {
    match a
    case TByte(_) => b.TByte?
    case TInt(_) => b.TInt?
    case TLong(_) => b.TLong?
    case TDouble(_) => b.TDouble?
    case TString(_) => b.TString?
    case TList(_) => b.TList?
    case TCompound(_) => b.TCompound?
  }

  predicate Uniform(ts: seq<Tag>) {
    forall i :: 0 <= i < |ts| ==> SameKind(ts[0], ts[i])
  }

  // ----- the schema's coercion -----

  /** `int(x)` of a tag: toward zero for a double, parsed for a string. */
  function IntOf(t: Tag): Option<int> {
    match t
    case TByte(i) => Some(i)
    case TInt(i) => Some(i)
    case TLong(i) => Some(i)
    case TDouble(r) => Some(FloatToInt(r))
    case TString(s) => ParseInt(s)
    case _ => None
  }

  /** An integer value declared Long is kept exactly when it fits 64 bits,
      whether the literal parser made it an int or, past 32 bits, a string. */
  lemma LongValueBinds(i: int, key: string)
    ensures Infer(JInt(i)).Ok?
    ensures LongMin <= i <= LongMax ==> Cast(Long, Infer(JInt(i)).value, key) == Ok(TLong(i))
    ensures !(LongMin <= i <= LongMax) ==> Cast(Long, Infer(JInt(i)).value, key) == Err(OutOfRange)
  {
    IntValueOf(i);
  }

  /** Whatever tag the literal parser gives an integer, `int()` of it is the
      integer. */
  lemma IntValueOf(i: int)
    ensures Infer(JInt(i)).Ok? && IntOf(Infer(JInt(i)).value) == Some(i)
  {
    if !(IntMin <= i <= IntMax) {
      assert Infer(JInt(i)).value == TString(IntToString(i));
      ParseIntToString(i);
      assert IntOf(TString(IntToString(i))) == ParseInt(IntToString(i));
    }
  }

  /** The same for a value declared Int: past 32 bits it is out of range. */
  lemma IntValueBinds(i: int, key: string)
    ensures IntMin <= i <= IntMax ==> Cast(Int, Infer(JInt(i)).value, key) == Ok(TInt(i))
    ensures !(IntMin <= i <= IntMax) ==> Cast(Int, Infer(JInt(i)).value, key) == Err(OutOfRange)
  {
    IntValueOf(i);
  }

  function RealOf(t: Tag): Option<real> {
    match t
    case TByte(i) => Some(i as real)
    case TInt(i) => Some(i as real)
    case TLong(i) => Some(i as real)
    case TDouble(r) => Some(r)
    case _ => None
  }

  function CastInt(t: Tag, lo: int, hi: int, key: string): Result<int, LevelError> {
    match IntOf(t)
    case None => Err(BadCast(key))
    case Some(i) => if lo <= i <= hi then Ok(i) else Err(OutOfRange)
  }

  /** Coerces the tag stored under `key` to a declared type. */
  function Cast(ty: TagType, t: Tag, key: string): (r: Result<Tag, LevelError>)
    decreases t
  {
    match ty
    case Byte => var i :- CastInt(t, ByteMin, ByteMax, key); Ok(TByte(i))
    case Int => var i :- CastInt(t, IntMin, IntMax, key); Ok(TInt(i))
    case Long => var i :- CastInt(t, LongMin, LongMax, key); Ok(TLong(i))
    case Double => if RealOf(t).Some? then Ok(TDouble(RealOf(t).value)) else Err(BadCast(key))
    case String => if t.TString? then Ok(t) else Err(BadCast(key))
    case List(e) =>
      if t.TList? then var items :- CastItems(e, t.items, key); Ok(TList(items))
      else Err(BadCast(key))
    case Compound => if t.TCompound? then Ok(t) else Err(BadCast(key))
    case Schema(_, fields, strict) =>
      if t.TCompound? then var es :- CastEntries(fields, strict, t.entries); Ok(TCompound(es))
      else Err(BadCast(key))
  }

  function CastItems(e: TagType, items: seq<Tag>, key: string): Result<seq<Tag>, LevelError>
    decreases items
  {
    if |items| == 0 then Ok([])
    else
      var t :- Cast(e, items[0], key);
      var ts :- CastItems(e, items[1..], key);
      Ok([t] + ts)
  }

  /** A schema visits the entries in order; the first failure is raised. */
  function CastEntries(fields: seq<(string, TagType)>, strict: bool, es: seq<(string, Tag)>)
    : Result<seq<(string, Tag)>, LevelError>
    decreases es
  {
    if |es| == 0 then Ok([])
    else
      assert es[0] in es;
      assert es[0].1 < es[0];
      var v :- match FieldType(fields, es[0].0)
               case Some(fty) => Cast(fty, es[0].1, es[0].0)
               case None => if strict then Err(UnknownKey(es[0].0)) else Ok(es[0].1);
      var rest :- CastEntries(fields, strict, es[1..]);
      Ok([(es[0].0, v)] + rest)
  }

  /** One step of a schema: the head entry, then the rest. */
  lemma CastEntriesCons(fields: seq<(string, TagType)>, strict: bool, k: string, t: Tag, rest: seq<(string, Tag)>)
    ensures var v := match FieldType(fields, k)
                     case Some(fty) => Cast(fty, t, k)
                     case None => if strict then Err(UnknownKey(k)) else Ok(t);
      var r := CastEntries(fields, strict, [(k, t)] + rest);
      (r.Ok? <==> v.Ok? && CastEntries(fields, strict, rest).Ok?)
      && (v.Err? ==> r == Err(v.error))
  {
    assert ([(k, t)] + rest)[1..] == rest;
  }

  /** A successful coercion yields a tag of the declared type. */
  lemma {:induction false} CastHasType(ty: TagType, t: Tag, key: string)
    ensures Cast(ty, t, key).Ok? ==> HasType(Cast(ty, t, key).value, ty)
    decreases t, 1
  {
    match ty
    case List(e) =>
      if t.TList? {
        CastItemsHaveType(e, t.items, key);
      }
    case Schema(_, fields, strict) =>
      if t.TCompound? {
        CastEntriesFit(fields, strict, t.entries);
      }
    case _ =>
  }

  lemma {:induction false} CastItemsHaveType(e: TagType, items: seq<Tag>, key: string)
    ensures CastItems(e, items, key).Ok? ==> ItemsHaveType(CastItems(e, items, key).value, e)
    decreases items, 0
  {
    if |items| > 0 {
      CastHasType(e, items[0], key);
      CastItemsHaveType(e, items[1..], key);
      var r := CastItems(e, items, key);
      if r.Ok? {
        assert r.value[1..] == CastItems(e, items[1..], key).value;
      }
    }
  }

  /** A schema keeps every entry's key, in order, and types its value. */
  lemma {:induction false} CastEntriesFit(fields: seq<(string, TagType)>, strict: bool, es: seq<(string, Tag)>)
    ensures CastEntries(fields, strict, es).Ok? ==> EntriesFit(CastEntries(fields, strict, es).value, fields, strict)
    ensures CastEntries(fields, strict, es).Ok? ==> EntryKeys(CastEntries(fields, strict, es).value) == EntryKeys(es)
    decreases es, 0
  {
    if |es| > 0 {
      assert es[0] in es;
      assert es[0].1 < es[0];
      match FieldType(fields, es[0].0) {
        case Some(fty) => CastHasType(fty, es[0].1, es[0].0);
        case None =>
      }
      CastEntriesFit(fields, strict, es[1..]);
      var r := CastEntries(fields, strict, es);
      if r.Ok? {
        assert r.value[1..] == CastEntries(fields, strict, es[1..]).value;
        assert EntryKeys(r.value) == [es[0].0] + EntryKeys(r.value[1..]);
        assert EntryKeys(es) == [es[0].0] + EntryKeys(es[1..]);
      }
    }
  }

  /** A strict schema rejects a compound holding a key it does not declare,
      whatever the other entries are. */
  lemma {:induction false} StrictRejects(fields: seq<(string, TagType)>, es: seq<(string, Tag)>, i: nat)
    requires i < |es| && FieldType(fields, es[i].0).None?
    ensures CastEntries(fields, true, es).Err?
  {
    if i > 0 {
      StrictRejects(fields, es[1..], i - 1);
    }
  }

  // ----- the merge and the file -----

  /** `default_data = template; default_data.update(args);
      default_data["DataVersion"] = default_data["Version"]["Id"]`. */
  function Merge(template: Fields, args: Fields): Result<Fields, LevelError> {
    var d := Update(template, args);
    match Get(d, "Version")
    case None => Err(MissingKey("Version"))
    case Some(v) =>
      if !v.JObj? then Err(NotSubscriptable)
      else match Get(v.fields, "Id")
        case None => Err(MissingKey("Id"))
        case Some(id) => Ok(Put(d, "DataVersion", id))
  }

  /** The merge against the baked-in template. */
  function MergedData(args: Fields): Result<Fields, LevelError> {
    Merge(LevelDatUtils.Template(), args)
  }

  /** The `Version` the merge reads: the argument's when it has one. */
  function MergedVersion(template: Fields, args: Fields): Option<Json> {
    if HasKey(args, "Version") then Get(args, "Version") else Get(template, "Version")
  }

  /** The merge is shallow: a key of the arguments replaces the template's
      value wholesale, every other template key keeps its value, and
      `DataVersion` is then forced to `Version.Id`. It fails exactly when the
      `Version` read is missing, not a dict, or has no `Id`. */
  lemma MergeSpec(template: Fields, args: Fields)
    requires UniqueKeys(args)
    ensures var v := MergedVersion(template, args);
      Merge(template, args).Ok? <==> v.Some? && v.value.JObj? && HasKey(v.value.fields, "Id")
    ensures Merge(template, args).Ok? ==>
      var m := Merge(template, args).value;
      && Get(m, "DataVersion") == Get(MergedVersion(template, args).value.fields, "Id")
      && Get(m, "Version") == MergedVersion(template, args)
      && (forall k :: k != "DataVersion" ==>
            Get(m, k) == if HasKey(args, k) then Get(args, k) else Get(template, k))
  {
    var d := Update(template, args);
    UpdateGet(template, args);
    if Merge(template, args).Ok? {
      var id := Get(Get(d, "Version").value.fields, "Id").value;
      PutGet(d, "DataVersion", id);
    }
  }

  /** The template's keys come first and in order, and the merged keys are
      the template's and the arguments'. */
  lemma MergeKeys(template: Fields, args: Fields)
    requires Merge(template, args).Ok?
    ensures var m := Merge(template, args).value;
      |template| <= |m| && Keys(m)[..|template|] == Keys(template)
    ensures UniqueKeys(template) ==> UniqueKeys(Merge(template, args).value)
    ensures UniqueKeys(args) ==> forall k :: k != "DataVersion" ==>
      (HasKey(Merge(template, args).value, k) <==> HasKey(template, k) || HasKey(args, k))
  {
    var d := Update(template, args);
    var id := Get(Get(d, "Version").value.fields, "Id").value;
    var m := Put(d, "DataVersion", id);
    assert Merge(template, args) == Ok(m);
    UpdateKeys(template, args);
    assert |template| <= |m| && Keys(m)[..|template|] == Keys(template) by {
      PutKeys(d, "DataVersion", id);
      if !HasKey(d, "DataVersion") {
        assert (Keys(d) + ["DataVersion"])[..|template|] == Keys(d)[..|template|];
      }
    }
    if UniqueKeys(template) {
      PutUnique(d, "DataVersion", id);
    }
    if UniqueKeys(args) {
      UpdateGet(template, args);
      PutGet(d, "DataVersion", id);
      forall k | k != "DataVersion"
        ensures HasKey(m, k) <==> HasKey(template, k) || HasKey(args, k)
      {
        assert Get(m, k) == Get(d, k);
      }
    }
  }

  /** Against the baked-in template: the merge fails only on an argument
      `Version` that is no dict or lacks `Id`; `DataVersion` ends equal to the
      `Version.Id` in force (2230 when the arguments bring no `Version`). */
  lemma MergedDataSpec(args: Fields)
    requires UniqueKeys(args)
    ensures MergedData(args).Ok? <==>
      (match Get(args, "Version")
       case None => true
       case Some(v) => v.JObj? && HasKey(v.fields, "Id"))
    ensures MergedData(args).Ok? && !HasKey(args, "Version") ==>
      Get(MergedData(args).value, "DataVersion") == Some(JInt(2230))
  {
    var t := LevelDatUtils.Template();
    LevelDatUtils.TemplateVersion();
    MergeSpec(t, args);
  }

  /** The level data tag: the merged dict through the literal parser and the
      `LevelData` schema. */
  function LevelData(args: Fields): Result<Tag, LevelError> {
    LevelDataFrom(LevelDatUtils.Template(), args)
  }

  function LevelDataFrom(template: Fields, args: Fields): Result<Tag, LevelError> {
    var d :- Merge(template, args);
    BindStrict("LevelData", LevelDataFields(), d)
  }

  /** `schema(name, fields, strict=True)(parse_nbt(json.dumps(d)))`. */
  function BindStrict(name: string, fields: seq<(string, TagType)>, d: Fields): Result<Tag, LevelError> {
    var t :- Infer(JObj(d));
    Cast(Schema(name, fields, true), t, name)
  }

  /** A bound strict compound holds the dict's keys, in order, each declared
      by the schema and carrying a value of its declared type; a dict with an
      undeclared key does not bind. */
  lemma BindStrictSpec(name: string, fields: seq<(string, TagType)>, d: Fields)
    ensures BindStrict(name, fields, d).Ok? ==>
      var t := BindStrict(name, fields, d).value;
      t.TCompound? && EntriesFit(t.entries, fields, true) && EntryKeys(t.entries) == Keys(d)
    ensures (exists i :: 0 <= i < |d| && FieldType(fields, d[i].0).None?) ==> BindStrict(name, fields, d).Err?
  {
    var p := Infer(JObj(d));
    if p.Ok? {
      CastHasType(Schema(name, fields, true), p.value, name);
      CastEntriesFit(fields, true, p.value.entries);
      if i :| 0 <= i < |d| && FieldType(fields, d[i].0).None? {
        assert EntryKeys(p.value.entries)[i] == d[i].0;
        StrictRejects(fields, p.value.entries, i);
      }
    }
  }

  /** `LevelFile`: an NBT file whose root compound is named `root_name`. */
  class LevelFile {
    var rootName: string
    var root: seq<(string, Tag)>
    var gzipped: bool

    /** `LevelFile(parse_nbt("{'':{Data:{}}}"))`: the constructor always
        marks the file gzipped. */
    constructor FromLiteral()
      ensures rootName == "" && root == [("Data", TCompound([]))] && gzipped
    {
      rootName := "";
      root := [("Data", TCompound([]))];
      gzipped := true;
    }

    /** The `data` property: the root's `Data` entry. */
    function Data(): (r: Option<Tag>)
      reads this
      ensures r.Some? <==> exists i :: 0 <= i < |root| && root[i].0 == "Data"
    {
      DataOf(root)
    }

    /** The `data` setter: `root['Data'] = value`; the root schema types
        `Data` as a plain compound. */
    method SetData(value: Tag)
      requires value.TCompound?
      modifies this
      ensures root == PutData(old(root), value)
      ensures rootName == old(rootName) && gzipped == old(gzipped)
      ensures Data() == Some(value)
    {
      root := PutData(root, value);
      PutDataGet(old(root), value);
    }
  }

  function DataOf(root: seq<(string, Tag)>): (r: Option<Tag>)
    ensures r.Some? <==> exists i :: 0 <= i < |root| && root[i].0 == "Data"
  {
    if |root| == 0 then None
    else if root[0].0 == "Data" then Some(root[0].1)
    else
      var r := DataOf(root[1..]);
      assert (exists i :: 1 <= i < |root| && root[i].0 == "Data") ==> r.Some? by {
        if i :| 1 <= i < |root| && root[i].0 == "Data" {
          assert root[1..][i - 1].0 == "Data";
        }
      }
      r
  }

  function PutData(root: seq<(string, Tag)>, value: Tag): seq<(string, Tag)> {
    if |root| == 0 then [("Data", value)]
    else if root[0].0 == "Data" then [("Data", value)] + root[1..]
    else [root[0]] + PutData(root[1..], value)
  }

  lemma {:induction false} PutDataGet(root: seq<(string, Tag)>, value: Tag)
    ensures DataOf(PutData(root, value)) == Some(value)
  {
    if |root| > 0 && root[0].0 != "Data" {
      PutDataGet(root[1..], value);
    }
  }

  /** `LevelFile.from_arguments(args)`: the steps below run on the dict that
      `get_template_dict()` returns. */
  method FromArguments(args: Fields) returns (r: Result<LevelFile, LevelError>)
    ensures r.Ok? <==> LevelData(args).Ok?
    ensures r.Ok? ==>
      fresh(r.value) && r.value.gzipped && r.value.rootName == "" && r.value.root == [("Data", LevelData(args).value)]
  {
    r := FromTemplate(LevelDatUtils.Template(), args);
  }

  method FromTemplate(template: Fields, args: Fields) returns (r: Result<LevelFile, LevelError>)
    ensures r.Ok? <==> LevelDataFrom(template, args).Ok?
    ensures r.Ok? ==>
      fresh(r.value) && r.value.gzipped && r.value.rootName == "" && r.value.root == [("Data", LevelDataFrom(template, args).value)]
  {
    var defaultData := template;
    defaultData := Update(defaultData, args);
    var version := Get(defaultData, "Version");
    if version.None? {
      return Err(MissingKey("Version"));
    }
    if !version.value.JObj? {
      return Err(NotSubscriptable);
    }
    var id := Get(version.value.fields, "Id");
    if id.None? {
      return Err(MissingKey("Id"));
    }
    defaultData := Put(defaultData, "DataVersion", id.value);
    var levelFile := new LevelFile.FromLiteral();
    var data := BindStrict("LevelData", LevelDataFields(), defaultData);
    if data.Err? {
      return Err(data.error);
    }
    levelFile.SetData(data.value);
    return Ok(levelFile);
  }

  /** `Difficulty` is declared a byte. */
  lemma DifficultyIsByte()
    ensures FieldType(LevelDataFields(), "Difficulty") == Some(Byte)
  {
    FieldTypeAt(LevelDataFields(), 14, "Difficulty");
  }

  lemma HardcoreIsByte()
    ensures FieldType(LevelDataFields(), "hardcore") == Some(Byte)
  {
    FieldTypeAt(LevelDataFields(), 22, "hardcore");
  }

  lemma RainingIsByte()
    ensures FieldType(LevelDataFields(), "raining") == Some(Byte)
  {
    FieldTypeAt(LevelDataFields(), 28, "raining");
  }

  lemma ThunderingIsByte()
    ensures FieldType(LevelDataFields(), "thundering") == Some(Byte)
  {
    FieldTypeAt(LevelDataFields(), 35, "thundering");
  }

  lemma GameTypeIsInt()
    ensures FieldType(LevelDataFields(), "GameType") == Some(Int)
  {
    FieldTypeAt(LevelDataFields(), 18, "GameType");
  }

  lemma RandomSeedIsLong()
    ensures FieldType(LevelDataFields(), "RandomSeed") == Some(Long)
  {
    FieldTypeAt(LevelDataFields(), 30, "RandomSeed");
  }

  /** A seed of any 64-bit value binds as the Long `RandomSeed`, one past
      32 bits included. */
  lemma SeedBinds(seed: int)
    requires LongMin <= seed <= LongMax
    ensures BindStrict("LevelData", LevelDataFields(), [("RandomSeed", JInt(seed))]).Ok?
    ensures BindStrict("LevelData", LevelDataFields(), [("RandomSeed", JInt(seed))]).value
      == TCompound([("RandomSeed", TLong(seed))])
  {
    RandomSeedIsLong();
    SingleLongBinds(LevelDataFields(), "RandomSeed", seed);
  }

  lemma SingleLongBinds(fields: seq<(string, TagType)>, k: string, i: int)
    requires FieldType(fields, k) == Some(Long) && LongMin <= i <= LongMax
    ensures BindStrict("LevelData", fields, [(k, JInt(i))]).Ok?
    ensures BindStrict("LevelData", fields, [(k, JInt(i))]).value == TCompound([(k, TLong(i))])
  {
    LongValueBinds(i, k);
    InferFieldsCons(k, JInt(i), []);
    assert [(k, JInt(i))] + [] == [(k, JInt(i))];
    assert InferFields([(k, JInt(i))]).Ok? && InferFields([(k, JInt(i))]).value == [(k, Infer(JInt(i)).value)];
    var t := Infer(JInt(i)).value;
    CastEntriesCons(fields, true, k, t, []);
    assert [(k, t)] + [] == [(k, t)];
    assert CastEntries(fields, true, [(k, t)]).Ok?;
    assert CastEntries(fields, true, [(k, t)]).value == [(k, TLong(i))];
  }

  /** One past the int range, as a concrete seed. */
  lemma WideSeedBinds()
    ensures BindStrict("LevelData", LevelDataFields(), [("RandomSeed", JInt(0x8000_0000))]).Ok?
  {
    SeedBinds(0x8000_0000);
  }

  lemma BorderSizeLerpTimeIsLong()
    ensures FieldType(LevelDataFields(), "BorderSizeLerpTime") == Some(Long)
  {
    FieldTypeAt(LevelDataFields(), 7, "BorderSizeLerpTime");
  }

  /** The border fields other than the lerp time are declared doubles, one
      declaration each. */
  lemma BorderFieldsAreDoubles()
    ensures forall i :: 1 <= i <= 9 && i != 7 ==>
      LevelDataFields()[i].1 == Double && LevelDataFields()[i].0[..6] == "Border"
  {
  }

  lemma DataPacksIsStrict()
    ensures FieldType(LevelDataFields(), "DataPacks") == Some(Schema("DataPacks", DataPacksFields(), true))
    ensures FieldType(DataPacksFields(), "Enabled") == Some(List(String))
    ensures FieldType(DataPacksFields(), "Disabled") == Some(List(String))
  {
    FieldTypeAt(LevelDataFields(), 11, "DataPacks");
  }

  lemma DimensionDataIsStrict()
    ensures FieldType(LevelDataFields(), "DimensionData") == Some(Schema("DimensionData", DimensionDataFields(), true))
  {
    FieldTypeAt(LevelDataFields(), 16, "DimensionData");
  }

  lemma GeneratorOptionsIsStrict()
    ensures FieldType(LevelDataFields(), "generatorOptions") == Some(Schema("generatorOptions", GeneratorOptionsFields(), true))
  {
    FieldTypeAt(LevelDataFields(), 20, "generatorOptions");
  }

  lemma VersionIsStrict()
    ensures FieldType(LevelDataFields(), "Version") == Some(Schema("Version", VersionFields(), true))
  {
    FieldTypeAt(LevelDataFields(), 39, "Version");
  }

  /** Where each template key sits in `level_data_dict`. */
  const TemplateSlot: seq<nat> :=
    [0, 1, 2, 3, 4, 5, 6, 7, 8, 9, 10, 11, 12, 14, 15, 13, 18, 17, 19, 21, 22,
     23, 24, 25, 26, 30, 28, 29, 35, 36, 37, 38, 39]

  lemma TemplateSlotsLow(i: nat)
    requires i < 11
    ensures LevelDataFields()[TemplateSlot[i]].0 == LevelDatUtils.Template()[i].0
  {
  }

  lemma TemplateSlotsMiddle(i: nat)
    requires 11 <= i < 22
    ensures LevelDataFields()[TemplateSlot[i]].0 == LevelDatUtils.Template()[i].0
  {
  }

  lemma TemplateSlotsHigh(i: nat)
    requires 22 <= i < 33
    ensures LevelDataFields()[TemplateSlot[i]].0 == LevelDatUtils.Template()[i].0
  {
  }

  /** Every template key is declared by `level_data_dict`, so the template
      alone passes the strict key check. */
  lemma TemplateKeysDeclared(i: nat)
    requires i < |LevelDatUtils.Template()|
    ensures FieldType(LevelDataFields(), LevelDatUtils.Template()[i].0).Some?
  {
    if i < 11 {
      TemplateSlotsLow(i);
    } else if i < 22 {
      TemplateSlotsMiddle(i);
    } else {
      TemplateSlotsHigh(i);
    }
    FieldDeclared(LevelDataFields(), TemplateSlot[i], LevelDatUtils.Template()[i].0);
  }

  /** The rule names of `game_rule_dict` are those of the default rules, in
      the same order. */
  lemma GameRuleKeysMatchDefaults()
    ensures |GameRuleFields()| == |LevelDatUtils.DefaultGamerules()|
    ensures forall i :: 0 <= i < |GameRuleFields()| ==>
      GameRuleFields()[i].0 == LevelDatUtils.DefaultGamerules()[i].0 && GameRuleFields()[i].1 == String
  {
  }
}
