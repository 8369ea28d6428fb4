/**
 * fast_world_creator/new_world/world_creator.py: the seed, the world and
 * data pack directories, and the level.dat dictionary built from the options.
 *
 * The disk is a set of directory paths and a map of saved NBT files; the
 * random draw and the MD5 digest are parameters.
 */
module WorldCreator {
  import opened Wrappers
  import opened Json
  import opened PyStr
  import opened MinecraftUtils
  import LevelDat

  // ----- the disk -----

  datatype OsError =
    | FileExists(path: string)
    | FileNotFound(path: string)
    | IsADirectory(path: string)

  /** The directory a path lives in; "" for a bare name. */
  function Parent(path: string): string {
    BeforeLast(path, '/')
  }

  /** What `os.mkdir(path)` does to a disk holding `dirs` and `files`. */
  function MkdirResult(dirs: set<string>, files: set<string>, path: string): (r: Result<(), OsError>)
    ensures r.Ok? <==> path !in dirs && path !in files && (Parent(path) == "" || Parent(path) in dirs)
  {
    if path in dirs || path in files then Err(FileExists(path))
    else if Parent(path) != "" && Parent(path) !in dirs then Err(FileNotFound(path))
    else Ok(())
  }

  /** What opening `path` for writing does. */
  function SaveResult(dirs: set<string>, path: string): (r: Result<(), OsError>)
    ensures r.Ok? <==> path !in dirs && (Parent(path) == "" || Parent(path) in dirs)
  {
    if path in dirs then Err(IsADirectory(path))
    else if Parent(path) != "" && Parent(path) !in dirs then Err(FileNotFound(path))
    else Ok(())
  }

  class Disk {
    var dirs: set<string>
    var files: map<string, seq<(string, LevelDat.Tag)>>

    constructor (dirs: set<string>)
      ensures this.dirs == dirs && files == map[]
    {
      this.dirs := dirs;
      files := map[];
    }

    predicate IsDir(path: string)
      reads this
    {
      path in dirs
    }

    /** `os.mkdir(path)`. */
    method Mkdir(path: string) returns (r: Result<(), OsError>)
      modifies this
      ensures r == MkdirResult(old(dirs), old(files.Keys), path)
      ensures dirs == if r.Ok? then old(dirs) + {path} else old(dirs)
      ensures files == old(files)
    {
      r := MkdirResult(dirs, files.Keys, path);
      if r.Ok? {
        dirs := dirs + {path};
      }
    }

    /** `level_file.save(filename=path)`: the file's root compound is written. */
    method Save(path: string, root: seq<(string, LevelDat.Tag)>) returns (r: Result<(), OsError>)
      modifies this
      ensures r == SaveResult(old(dirs), path)
      ensures files == if r.Ok? then old(files)[path := root] else old(files)
      ensures dirs == old(dirs)
    {
      r := SaveResult(dirs, path);
      if r.Ok? {
        files := files[path := root];
      }
    }
  }

  // ----- the seed -----

  /** The `seed` argument: None, an int, or the text typed in the form. */
  datatype SeedArg = NoSeed | IntSeed(n: int) | TextSeed(s: string)

  /** `not seed`. */
  predicate SeedFalsy(a: SeedArg) {
    a == NoSeed || a == IntSeed(0) || a == TextSeed("")
  }

  /** `int(hexdigest[:7], 16)`: the first seven hex digits of the digest. */
  function DigestSeed(digest: seq<Byte>): (n: nat)
    requires |digest| == 16
    ensures n < Pow16(7)
  {
    var hex := HexDigest(digest);
    HexDigestIsHex(digest);
    HexValueBound(hex[..7]);
    HexValue(hex[..7])
  }

  lemma HexDigestIsHex(digest: seq<Byte>)
    ensures IsHexText(HexDigest(digest))
  {
    var hex := HexDigest(digest);
    forall j | 0 <= j < |hex| ensures hex[j] in HexAlphabet {
      var i := j / 2;
      var c := if j == 2 * i then digest[i] / 16 else digest[i] % 16;
      assert hex[j] == HexAlphabet[c];
    }
  }

  /** The seed `__init__` settles on: a random draw for a falsy seed, the
      number a text spells, otherwise the digest of the text (its UTF-8
      encoding is folded into `md5`). */
  function DeriveSeed(a: SeedArg, draw: int, md5: string -> seq<Byte>): int
    requires forall s :: |md5(s)| == 16
  {
    if SeedFalsy(a) then draw
    else match a
      case NoSeed => draw
      case IntSeed(n) => n
      case TextSeed(s) =>
        match ParseInt(s)
        case Some(n) => n
        case None => DigestSeed(md5(s))
  }

  /** A falsy seed becomes the draw, which is in [0, 1000000]; a text seed
      that is not a number becomes a value in [0, 16^7) drawn from the first
      seven hex digits of its digest; every other seed is the number itself. */
  lemma DeriveSeedSpec(a: SeedArg, draw: int, md5: string -> seq<Byte>)
    requires forall s :: |md5(s)| == 16
    requires 0 <= draw <= 1000000
    ensures SeedFalsy(a) ==> 0 <= DeriveSeed(a, draw, md5) <= 1000000
    ensures a.TextSeed? && a.s != "" && ParseInt(a.s).None? ==>
      0 <= DeriveSeed(a, draw, md5) < Pow16(7) && DeriveSeed(a, draw, md5) == DigestSeed(md5(a.s))
    ensures a.IntSeed? && a.n != 0 ==> DeriveSeed(a, draw, md5) == a.n
    ensures a.TextSeed? && a.s != "" && ParseInt(a.s).Some? ==> DeriveSeed(a, draw, md5) == ParseInt(a.s).value
  {
  }

  /** A text seed spelling an integer gives exactly that integer. */
  lemma TextSeedOfNumber(n: int, draw: int, md5: string -> seq<Byte>)
    requires forall s :: |md5(s)| == 16
    ensures DeriveSeed(TextSeed(IntToString(n)), draw, md5) == n
  {
    var s := IntToString(n);
    assert |s| >= 1;
    assert !SeedFalsy(TextSeed(s));
    ParseIntToString(n);
  }

  /** `f"{MC_FOLDER}/saves/{name}"`. */
  function SavesDir(mcFolder: string, name: string): string {
    mcFolder + "/saves/" + name
  }

  /** The directory `create_world_directory` aims at: the seed is appended
      once when the plain name is taken. */
  function TargetDir(wDir: string, seed: int, dirs: set<string>): string {
    if wDir in dirs then wDir + IntToString(seed) else wDir
  }

  /** The outcome of `create_world_directory` on a disk: the directory made,
      or the error raised, in which case nothing is created. */
  lemma WorldDirectoryOutcome(wDir: string, seed: int, dirs: set<string>, files: set<string>)
    ensures var t := TargetDir(wDir, seed, dirs);
      (t == wDir || t == wDir + IntToString(seed))
      && (wDir !in dirs ==> t == wDir)
      && (wDir in dirs ==> t == wDir + IntToString(seed) && t != wDir)
      && (wDir in dirs && wDir + IntToString(seed) in dirs ==> MkdirResult(dirs, files, t) == Err(FileExists(t)))
  {
    assert |IntToString(seed)| > 0;
  }

  /** The superflat layer the form produces: the `split("*")` list of a piece
      holding `*` (count first, then block), or `(1, piece)`. */
  datatype FlatLayer = Starred(parts: seq<string>) | Plain(block: string)

  /** The generator options the form hands over (`parse_generator_options`). */
  datatype GeneratorOpts = GeneratorOpts(
    buffetBiomeType: string,
    buffetBiomes: seq<string>,
    buffetSize: int,
    buffetBlock: string,
    buffetFluid: string,
    buffetChunkType: string,
    flatBiome: string,
    flatLayers: seq<FlatLayer>,
    flatStructures: Fields)

  /** The `border_settings` dict, every entry already a float. */
  datatype Border = Border(
    x: real, z: real, damage: real, safeBlocks: real, size: real,
    sizeTarget: real, lerpTime: real, warnBlocks: real, warnTime: real)

  /** The arguments of `create_level_dat`. */
  datatype LevelOptions = LevelOptions(
    gamerules: Fields,
    difficulty: int,
    datapacks: seq<string>,
    gameMode: int,
    raining: Json,
    thundering: Json,
    border: Border,
    generator: string,
    generatorOpts: Option<GeneratorOpts>)

  datatype WorldError =
    | ValueError                   // `Difficulties(n)` outside 0..4
    | AttributeError               // `generator_opts` is None for buffet or flat
    | IndexError                   // a flat layer list without a block
    | Level(e: LevelDat.LevelError)
    | Os(o: OsError)

  const Mc: string := "minecraft:"

  /** The `file/<name>.zip` address of each enabled data pack. */
  function DatapackAddresses(names: seq<string>): (r: seq<Json>)
    ensures |r| == |names|
    ensures forall i :: 0 <= i < |names| ==> r[i] == JStr("file/" + names[i] + ".zip")
  {
    seq(|names|, i requires 0 <= i < |names| => JStr("file/" + names[i] + ".zip"))
  }

  /** The dictionary literal of `create_level_dat`, before any generator
      options; `version_map` is a parameter. */
  function LevelDatDict(release: string, versionMap: map<string, int>, name: string, seed: int, o: LevelOptions)
    : Result<Fields, WorldError>
  {
    match FromValue(o.difficulty)
    case None => Err(ValueError)
    case Some(d) =>
      var b := o.border;
      Ok([
        ("Version", JObj([("Id", if release in versionMap then JInt(versionMap[release]) else JNull),
                          ("Name", JStr(release))])),
        ("LevelName", JStr(name)),
        ("RandomSeed", JInt(seed)),
        ("DataPacks", JObj([("Enabled", JArr(DatapackAddresses(o.datapacks))), ("Disabled", JArr([]))])),
        ("Difficulty", JInt(if o.difficulty < 3 then o.difficulty else 3)),
        ("hardcore", JInt(if d.IsHardcore() then 1 else 0)),
        ("generatorName", JStr(Lower(o.generator))),
        ("GameRules", JObj(o.gamerules)),
        ("GameType", JInt(o.gameMode)),
        ("raining", if Truthy(o.thundering) then JBool(true) else o.raining),
        ("thundering", if Truthy(o.thundering) then o.thundering else JBool(false)),
        ("BorderCenterX", JReal(b.x)),
        ("BorderCenterZ", JReal(b.z)),
        ("BorderDamagePerBlock", JReal(b.damage)),
        ("BorderSafeZone", JReal(b.safeBlocks)),
        ("BorderSize", JReal(b.size)),
        ("BorderSizeLerpTarget", JReal(b.sizeTarget)),
        ("BorderSizeLerpTime", JInt(FloatToInt(b.lerpTime * 600.0))),
        ("BorderWarningBlocks", JReal(b.warnBlocks)),
        ("BorderWarningTime", JReal(b.warnTime))
      ])
  }

  /** The dict fails only on a difficulty outside 0..4; `Difficulty` is the
      difficulty capped at 3 and `hardcore` is 1 exactly for difficulty 4. */
  lemma DifficultyFields(release: string, versionMap: map<string, int>, name: string, seed: int, o: LevelOptions)
    ensures var r := LevelDatDict(release, versionMap, name, seed, o);
      (r.Ok? <==> 0 <= o.difficulty <= 4)
      && (r.Ok? ==>
            && |r.value| == 20
            && r.value[4] == ("Difficulty", JInt(if o.difficulty <= 3 then o.difficulty else 3))
            && r.value[6] == ("generatorName", JStr(Lower(o.generator)))
            && r.value[5].0 == "hardcore"
            && (r.value[5].1 == JInt(1) <==> o.difficulty == 4)
            && (r.value[5].1 == JInt(0) <==> o.difficulty != 4))
  {
    FromValueSpec(o.difficulty);
    if 0 <= o.difficulty <= 4 {
      HardcoreIsFour(FromValue(o.difficulty).value);
    }
  }

  /** Thunder forces rain; without thunder `raining` is passed through and
      `thundering` is false. */
  lemma WeatherFields(release: string, versionMap: map<string, int>, name: string, seed: int, o: LevelOptions)
    requires 0 <= o.difficulty <= 4
    ensures var d := LevelDatDict(release, versionMap, name, seed, o).value;
      && d[9].0 == "raining" && d[10].0 == "thundering"
      && (Truthy(d[10].1) ==> d[9].1 == JBool(true))
      && (Truthy(d[10].1) <==> Truthy(o.thundering))
      && (!Truthy(o.thundering) ==> d[9].1 == o.raining && d[10].1 == JBool(false))
  {
    FromValueSpec(o.difficulty);
  }

  /** Every name is enabled as `file/<name>.zip`, in order, and none is
      disabled; the lerp time in seconds becomes ticks, exactly 600 per whole
      second. */
  lemma DatapackAndBorderFields(release: string, versionMap: map<string, int>, name: string, seed: int,
                                o: LevelOptions, seconds: int)
    requires 0 <= o.difficulty <= 4
    ensures var d := LevelDatDict(release, versionMap, name, seed, o).value;
      && d[3].0 == "DataPacks"
      && d[3].1 == JObj([("Enabled", JArr(DatapackAddresses(o.datapacks))), ("Disabled", JArr([]))])
      && d[17].0 == "BorderSizeLerpTime"
      && (o.border.lerpTime == seconds as real ==> d[17].1 == JInt(600 * seconds))
  {
    FromValueSpec(o.difficulty);
    if o.border.lerpTime == seconds as real {
      assert o.border.lerpTime * 600.0 == (600 * seconds) as real;
    }
  }

  /** `Version.Id` is the release's entry in the version map, or None for a
      release the map does not know. */
  lemma VersionField(release: string, versionMap: map<string, int>, name: string, seed: int, o: LevelOptions)
    requires 0 <= o.difficulty <= 4
    ensures var d := LevelDatDict(release, versionMap, name, seed, o).value;
      && d[0].0 == "Version" && d[0].1.JObj?
      && Get(d[0].1.fields, "Id") == Some(if release in versionMap then JInt(versionMap[release]) else JNull)
      && Get(d[0].1.fields, "Name") == Some(JStr(release))
  {
    FromValueSpec(o.difficulty);
  }

  // ----- generator options -----

  predicate LayerOk(l: FlatLayer) {
    l.Plain? || |l.parts| >= 2
  }

  /** `{"block": mc + layer[1], "height": str(layer[0])}`. */
  function LayerJson(l: FlatLayer): Json
    requires LayerOk(l)
  {
    match l
    case Plain(block) => JObj([("block", JStr(Mc + block)), ("height", JStr("1"))])
    case Starred(parts) => JObj([("block", JStr(Mc + parts[1])), ("height", JStr(parts[0]))])
  }

  /** Every layer of the options is well formed. */
  predicate LayersOk(layers: seq<FlatLayer>) {
    forall i :: 0 <= i < |layers| ==> LayerOk(layers[i])
  }

  function LayersJson(layers: seq<FlatLayer>): seq<Json>
    requires LayersOk(layers)
  {
    seq(|layers|, i requires 0 <= i < |layers| => LayerJson(layers[i]))
  }

  /** A layer becomes one `{block, height}` entry, in order: a plain piece is
      one layer of `minecraft:<piece>`, a starred one `minecraft:<block>` with
      the typed count as height. */
  lemma LayersSpec(layers: seq<FlatLayer>)
    requires LayersOk(layers)
    ensures |LayersJson(layers)| == |layers|
    ensures forall i :: 0 <= i < |layers| ==>
      var l := layers[i];
      LayersJson(layers)[i].JObj?
      && Get(LayersJson(layers)[i].fields, "height") == Some(JStr(if l.Plain? then "1" else l.parts[0]))
      && Get(LayersJson(layers)[i].fields, "block") == Some(JStr(Mc + if l.Plain? then l.block else l.parts[1]))
  {
  }

  /** The `generator_layers` loop: one entry per layer, in order; a starred
      layer without a block raises IndexError. */
  method GeneratorLayers(layers: seq<FlatLayer>) returns (r: Result<seq<Json>, WorldError>)
    ensures r.Ok? <==> LayersOk(layers)
    ensures r.Err? ==> r.error == IndexError
    ensures r.Ok? ==> r.value == LayersJson(layers)
  {
    var generatorLayers: seq<Json> := [];
    for i := 0 to |layers|
      invariant |generatorLayers| == i
      invariant forall j :: 0 <= j < i ==> LayerOk(layers[j]) && generatorLayers[j] == LayerJson(layers[j])
    {
      if !LayerOk(layers[i]) {
        return Err(IndexError);
      }
      generatorLayers := generatorLayers + [LayerJson(layers[i])];
    }
    return Ok(generatorLayers);
  }

  function BuffetOptions(g: GeneratorOpts): Json {
    JObj([
      ("biome_source", JObj([
        ("type", JStr(Mc + g.buffetBiomeType)),
        ("options", JObj([
          ("size", JInt(g.buffetSize)),
          ("biomes", JArr(seq(|g.buffetBiomes|, i requires 0 <= i < |g.buffetBiomes| => JStr(Mc + g.buffetBiomes[i]))))]))])),
      ("chunk_generator", JObj([
        ("options", JObj([
          ("default_block", JStr(Mc + g.buffetBlock)),
          ("default_fluid", JStr(Mc + g.buffetFluid))])),
        ("type", JStr(Mc + g.buffetChunkType))]))
    ])
  }

  function FlatOptions(g: GeneratorOpts, layers: seq<Json>): Json {
    JObj([
      ("biome", JStr(Mc + g.flatBiome)),
      ("layers", JArr(layers)),
      ("structures", JObj(g.flatStructures))
    ])
  }

  /** The generator options added for `generator`: None unless it is exactly
      `"buffet"` or `"flat"` (compared before lower-casing). */
  function GeneratorOptions(o: LevelOptions): Result<Option<Json>, WorldError> {
    if o.generator != "buffet" && o.generator != "flat" then Ok(None)
    else if o.generatorOpts.None? then Err(AttributeError)
    else if o.generator == "buffet" then Ok(Some(BuffetOptions(o.generatorOpts.value)))
    else if !LayersOk(o.generatorOpts.value.flatLayers) then Err(IndexError)
    else Ok(Some(FlatOptions(o.generatorOpts.value, LayersJson(o.generatorOpts.value.flatLayers))))
  }

  /** The dictionary `create_level_dat` hands to `from_arguments`. */
  function LevelDatArgs(release: string, versionMap: map<string, int>, name: string, seed: int, o: LevelOptions)
    : Result<Fields, WorldError>
  {
    var d :- LevelDatDict(release, versionMap, name, seed, o);
    var g :- GeneratorOptions(o);
    if g.None? then Ok(d) else Ok(Put(d, "generatorOptions", g.value))
  }

  /** `generatorOptions` is present exactly for `"buffet"` and `"flat"`, with
      the options built for that generator; the literal's keys are kept in
      order and the new key goes last. */
  lemma GeneratorOptionsPresence(release: string, versionMap: map<string, int>, name: string, seed: int,
                                 o: LevelOptions)
    requires 0 <= o.difficulty <= 4
    requires GeneratorOptions(o).Ok?
    ensures var r := LevelDatArgs(release, versionMap, name, seed, o).value;
      var d := LevelDatDict(release, versionMap, name, seed, o).value;
      && (HasKey(r, "generatorOptions") <==> o.generator == "buffet" || o.generator == "flat")
      && Keys(r) == Keys(d) + (if o.generator == "buffet" || o.generator == "flat" then ["generatorOptions"] else [])
      && (o.generator == "buffet" ==> Get(r, "generatorOptions") == Some(BuffetOptions(o.generatorOpts.value)))
      && (o.generator == "flat" ==>
            Get(r, "generatorOptions") == Some(FlatOptions(o.generatorOpts.value, LayersJson(o.generatorOpts.value.flatLayers))))
  {
    FromValueSpec(o.difficulty);
    var d := LevelDatDict(release, versionMap, name, seed, o).value;
    forall j | 0 <= j < |d| ensures d[j].0 != "generatorOptions" {
    }
    AbsentKey(d, "generatorOptions");
    var g := GeneratorOptions(o).value;
    if g.Some? {
      PutKeys(d, "generatorOptions", g.value);
      PutGet(d, "generatorOptions", g.value);
    }
  }

  /** The dict is built whenever the difficulty is in 0..4 and the
      generator's options are present and well formed. */
  lemma LevelDatArgsDefined(release: string, versionMap: map<string, int>, name: string, seed: int, o: LevelOptions)
    ensures LevelDatArgs(release, versionMap, name, seed, o).Ok? <==> 0 <= o.difficulty <= 4 && GeneratorOptions(o).Ok?
    ensures GeneratorOptions(o).Ok? <==>
      (o.generator == "buffet" || o.generator == "flat" ==> o.generatorOpts.Some?)
      && (o.generator == "flat" ==> LayersOk(o.generatorOpts.value.flatLayers))
  {
    FromValueSpec(o.difficulty);
  }

  // ----- the superflat options against the generator options schema -----

  function LayerSchema(): LevelDat.TagType {
    LevelDat.Schema("layers", LevelDat.LayerFields(), false)
  }

  /** Every layer parses to a compound of two strings and fits the `layers`
      schema. */
  lemma {:induction false} LayersBind(layers: seq<FlatLayer>)
    requires LayersOk(layers)
    ensures LevelDat.InferItems(LayersJson(layers)).Ok?
    ensures var ts := LevelDat.InferItems(LayersJson(layers)).value;
      |ts| == |layers| && (forall i :: 0 <= i < |ts| ==> ts[i].TCompound?)
      && LevelDat.CastItems(LayerSchema(), ts, "layers").Ok?
  {
    if |layers| > 0 {
      var l := layers[0];
      assert LayersOk(layers[1..]) by {
        forall i | 0 <= i < |layers[1..]| ensures LayerOk(layers[1..][i]) {
          assert layers[1..][i] == layers[i + 1];
        }
      }
      LayersBind(layers[1..]);
      assert LayersJson(layers)[1..] == LayersJson(layers[1..]);
      LayerBinds(l);
    }
  }

  /** One layer parses to a compound of its two strings and fits the
      `layers` schema. */
  lemma LayerBinds(l: FlatLayer)
    requires LayerOk(l)
    ensures LevelDat.Infer(LayerJson(l)).Ok?
    ensures LevelDat.Infer(LayerJson(l)).value.TCompound?
    ensures LevelDat.Cast(LayerSchema(), LevelDat.Infer(LayerJson(l)).value, "layers").Ok?
  {
    var block := if l.Plain? then Mc + l.block else Mc + l.parts[1];
    var height := if l.Plain? then "1" else l.parts[0];
    assert LayerJson(l) == JObj([("block", JStr(block)), ("height", JStr(height))]);
    LayerParses(block, height);
    LayerFits(block, height);
  }

  /** A layer's two strings parse to a compound of two strings. */
  lemma LayerParses(block: string, height: string)
    ensures LevelDat.Infer(JObj([("block", JStr(block)), ("height", JStr(height))]))
      == Ok(LevelDat.TCompound([("block", LevelDat.TString(block)), ("height", LevelDat.TString(height))]))
  {
    assert LevelDat.InferFields([]) == Ok([]);
    LevelDat.InferFieldsCons("height", JStr(height), []);
    assert [("height", JStr(height))] + [] == [("height", JStr(height))];
    assert LevelDat.InferFields([("height", JStr(height))]).Ok?;
    assert LevelDat.InferFields([("height", JStr(height))]).value == [("height", LevelDat.TString(height))];
    LevelDat.InferFieldsCons("block", JStr(block), [("height", JStr(height))]);
    assert [("block", JStr(block)), ("height", JStr(height))] == [("block", JStr(block))] + [("height", JStr(height))];
    assert LevelDat.InferFields([("block", JStr(block)), ("height", JStr(height))]).Ok?;
    assert LevelDat.InferFields([("block", JStr(block)), ("height", JStr(height))]).value
      == [("block", LevelDat.TString(block)), ("height", LevelDat.TString(height))];
  }

  /** A compound of the two layer strings fits the `layers` schema. */
  lemma LayerFits(block: string, height: string)
    ensures LevelDat.Cast(LayerSchema(),
      LevelDat.TCompound([("block", LevelDat.TString(block)), ("height", LevelDat.TString(height))]), "layers").Ok?
  {
    var fields := LevelDat.LayerFields();
    LevelDat.FieldTypeAt(fields, 0, "block");
    LevelDat.FieldTypeAt(fields, 1, "height");
    assert LevelDat.CastEntries(fields, false, []) == Ok([]);
    LevelDat.CastEntriesCons(fields, false, "height", LevelDat.TString(height), []);
    assert [("height", LevelDat.TString(height))] + [] == [("height", LevelDat.TString(height))];
    LevelDat.CastEntriesCons(fields, false, "block", LevelDat.TString(block), [("height", LevelDat.TString(height))]);
    assert [("block", LevelDat.TString(block)), ("height", LevelDat.TString(height))]
      == [("block", LevelDat.TString(block))] + [("height", LevelDat.TString(height))];
  }

  /** As written, the strict generator options schema rejects every
      superflat option set that parses: its first key, `biome`, is not
      declared. */
  lemma FlatOptionsRejectedAsWritten(g: GeneratorOpts, layers: seq<Json>)
    requires LevelDat.Infer(FlatOptions(g, layers)).Ok?
    ensures LevelDat.Cast(LevelDat.Schema("generatorOptions", LevelDat.GeneratorOptionsFieldsAsWritten(), true),
                          LevelDat.Infer(FlatOptions(g, layers)).value, "generatorOptions")
            == Err(LevelDat.UnknownKey("biome"))
  {
    var fields := LevelDat.GeneratorOptionsFieldsAsWritten();
    forall j | 0 <= j < |fields| ensures fields[j].0 != "biome" {
    }
    assert LevelDat.FieldType(fields, "biome").None?;
    var es := LevelDat.Infer(FlatOptions(g, layers)).value.entries;
    assert LevelDat.EntryKeys(es)[0] == "biome";
  }

  /** The superflat options of well-formed layers parse exactly when their
      structures do, to the three entries in order. */
  lemma FlatOptionsParse(g: GeneratorOpts)
    requires LayersOk(g.flatLayers)
    ensures var v := FlatOptions(g, LayersJson(g.flatLayers));
      && LevelDat.InferItems(LayersJson(g.flatLayers)).Ok?
      && (LevelDat.Infer(v).Ok? <==> LevelDat.Infer(JObj(g.flatStructures)).Ok?)
      && (LevelDat.Infer(v).Ok? ==>
            LevelDat.Infer(v).value.TCompound? && LevelDat.Infer(JObj(g.flatStructures)).value.TCompound? &&
            LevelDat.Infer(v).value.entries ==
              [("biome", LevelDat.TString(Mc + g.flatBiome)),
               ("layers", LevelDat.TList(LevelDat.InferItems(LayersJson(g.flatLayers)).value)),
               ("structures", LevelDat.Infer(JObj(g.flatStructures)).value)])
  {
    var layers := LayersJson(g.flatLayers);
    LayersBind(g.flatLayers);
    var ts := LevelDat.InferItems(layers).value;
    assert LevelDat.Uniform(ts);
    assert LevelDat.Infer(JArr(layers)).Ok?;
    assert LevelDat.Infer(JArr(layers)).value == LevelDat.TList(ts);
    InferThree(("biome", JStr(Mc + g.flatBiome)), ("layers", JArr(layers)), ("structures", JObj(g.flatStructures)));
  }

  /** A compound of three entries converts exactly when each value does. */
  lemma InferThree(a: (string, Json), b: (string, Json), c: (string, Json))
    ensures var r := LevelDat.InferFields([a, b, c]);
      && (r.Ok? <==> LevelDat.Infer(a.1).Ok? && LevelDat.Infer(b.1).Ok? && LevelDat.Infer(c.1).Ok?)
      && (r.Ok? ==> r.value == [(a.0, LevelDat.Infer(a.1).value), (b.0, LevelDat.Infer(b.1).value), (c.0, LevelDat.Infer(c.1).value)])
  {
    assert LevelDat.InferFields([]).Ok? && LevelDat.InferFields([]).value == [];
    LevelDat.InferFieldsCons(c.0, c.1, []);
    assert [c] + [] == [c];
    LevelDat.InferFieldsCons(b.0, b.1, [c]);
    LevelDat.InferFieldsCons(a.0, a.1, [b, c]);
    assert [a, b, c] == [a] + [b, c] && [b, c] == [b] + [c];
  }

  /** With `biome` declared, the superflat options of well-formed layers
      fit the generator options schema whenever they parse. */
  lemma FlatOptionsBind(g: GeneratorOpts)
    requires LayersOk(g.flatLayers)
    ensures var v := FlatOptions(g, LayersJson(g.flatLayers));
      LevelDat.Infer(v).Ok? ==>
        LevelDat.Cast(LevelDat.Schema("generatorOptions", LevelDat.GeneratorOptionsFields(), true),
                      LevelDat.Infer(v).value, "generatorOptions").Ok?
  {
    var fields := LevelDat.GeneratorOptionsFields();
    var p := LevelDat.Infer(FlatOptions(g, LayersJson(g.flatLayers)));
    if p.Ok? {
      LevelDat.FieldTypeAt(fields, 4, "biome");
      LevelDat.FieldTypeAt(fields, 3, "layers");
      LevelDat.FieldTypeAt(fields, 2, "structures");
      FlatOptionsParse(g);
      LayersBind(g.flatLayers);
      StructuresBind(g, fields, LevelDat.InferItems(LayersJson(g.flatLayers)).value, p.value.entries[2].1);
    }
  }

  /** The three entries of parsed superflat options fit a strict schema
      declaring their keys. */
  lemma StructuresBind(g: GeneratorOpts, fields: seq<(string, LevelDat.TagType)>, ts: seq<LevelDat.Tag>, structures: LevelDat.Tag)
    requires LevelDat.FieldType(fields, "biome") == Some(LevelDat.String)
    requires LevelDat.FieldType(fields, "layers") == Some(LevelDat.List(LayerSchema()))
    requires LevelDat.FieldType(fields, "structures") == Some(LevelDat.Compound)
    requires LevelDat.CastItems(LayerSchema(), ts, "layers").Ok?
    requires structures.TCompound?
    ensures LevelDat.Cast(LevelDat.Schema("generatorOptions", fields, true),
                          LevelDat.TCompound([("biome", LevelDat.TString(Mc + g.flatBiome)), ("layers", LevelDat.TList(ts)), ("structures", structures)]),
                          "generatorOptions").Ok?
  {
    var es := [("biome", LevelDat.TString(Mc + g.flatBiome)), ("layers", LevelDat.TList(ts)), ("structures", structures)];
    assert LevelDat.CastEntries(fields, true, [es[2]]).Ok? by {
      assert LevelDat.CastEntries(fields, true, []).Ok?;
      LevelDat.CastEntriesCons(fields, true, es[2].0, es[2].1, []);
      assert [es[2]] + [] == [es[2]];
    }
    assert LevelDat.CastEntries(fields, true, [es[1], es[2]]).Ok? by {
      LevelDat.CastEntriesCons(fields, true, es[1].0, es[1].1, [es[2]]);
      assert [es[1], es[2]] == [es[1]] + [es[2]];
    }
    LevelDat.CastEntriesCons(fields, true, es[0].0, es[0].1, [es[1], es[2]]);
    assert es == [es[0]] + [es[1], es[2]];
  }

  // ----- the object -----

  class WorldCreator {
    var mcRelease: string
    var name: string
    var seed: int
    var wDir: string

    /** `WorldCreator(mc_release, world_name, seed)`: `draw` is what
        `random.randint(0, 1000000)` returns and `md5` the digest of a
        text's UTF-8 bytes. */
    constructor (mcRelease: string, worldName: string, seedArg: SeedArg, draw: int,
                 md5: string -> seq<Byte>, mcFolder: string)
      requires 0 <= draw <= 1000000
      requires forall s :: |md5(s)| == 16
      ensures this.mcRelease == mcRelease && name == worldName
      ensures seed == DeriveSeed(seedArg, draw, md5)
      ensures wDir == SavesDir(mcFolder, worldName)
    {
      this.mcRelease := mcRelease;
      name := worldName;
      var s := seedArg;
      if SeedFalsy(s) {
        s := IntSeed(draw);
      }
      match s {
        case NoSeed => seed := draw;
        case IntSeed(n) => seed := n;
        case TextSeed(t) =>
          match ParseInt(t) {
            case Some(n) => seed := n;
            case None => seed := DigestSeed(md5(t));
          }
      }
      wDir := SavesDir(mcFolder, worldName);
    }

    /** `create_world_directory`: appends the seed when the name is taken
        (even if `mkdir` then fails), creates the directory and returns it. */
    method CreateWorldDirectory(disk: Disk) returns (r: Result<string, OsError>)
      modifies this, disk
      ensures wDir == TargetDir(old(wDir), seed, old(disk.dirs))
      ensures mcRelease == old(mcRelease) && name == old(name) && seed == old(seed)
      ensures r == (match MkdirResult(old(disk.dirs), old(disk.files.Keys), wDir)
                    case Ok(_) => Ok(wDir)
                    case Err(e) => Err(e))
      ensures disk.dirs == if r.Ok? then old(disk.dirs) + {wDir} else old(disk.dirs)
      ensures disk.files == old(disk.files)
    {
      if disk.IsDir(wDir) {
        wDir := wDir + IntToString(seed);
      }
      var m := disk.Mkdir(wDir);
      if m.Err? {
        return Err(m.error);
      }
      return Ok(wDir);
    }

    /** `create_datapack_directory`: `<w_dir>/datapacks`. */
    method CreateDatapackDirectory(disk: Disk) returns (r: Result<(), OsError>)
      modifies disk
      ensures r == MkdirResult(old(disk.dirs), old(disk.files.Keys), wDir + "/datapacks")
      ensures disk.dirs == if r.Ok? then old(disk.dirs) + {wDir + "/datapacks"} else old(disk.dirs)
      ensures disk.files == old(disk.files)
    {
      r := disk.Mkdir(wDir + "/datapacks");
    }

    /** The statements of `create_level_dat` that build the dict. */
    method LevelDatArguments(versionMap: map<string, int>, o: LevelOptions) returns (r: Result<Fields, WorldError>)
      ensures r == LevelDatArgs(mcRelease, versionMap, name, seed, o)
    {
      var base := LevelDatDict(mcRelease, versionMap, name, seed, o);
      if base.Err? {
        return Err(base.error);
      }
      var levelDatDict := base.value;
      if o.generator == "buffet" {
        if o.generatorOpts.None? {
          return Err(AttributeError);
        }
        levelDatDict := Put(levelDatDict, "generatorOptions", BuffetOptions(o.generatorOpts.value));
      } else if o.generator == "flat" {
        if o.generatorOpts.None? {
          return Err(AttributeError);
        }
        var layers := GeneratorLayers(o.generatorOpts.value.flatLayers);
        if layers.Err? {
          return Err(layers.error);
        }
        levelDatDict := Put(levelDatDict, "generatorOptions", FlatOptions(o.generatorOpts.value, layers.value));
      }
      return Ok(levelDatDict);
    }

    /** `create_level_dat`: builds the dict, binds it through
        `LevelFile.from_arguments` and saves `<w_dir>/level.dat`. */
    method CreateLevelDat(disk: Disk, versionMap: map<string, int>, o: LevelOptions) returns (r: Result<(), WorldError>)
      modifies disk
      ensures r.Ok? <==>
        var args := LevelDatArgs(mcRelease, versionMap, name, seed, o);
        args.Ok? && LevelDat.LevelData(args.value).Ok? && SaveResult(old(disk.dirs), wDir + "/level.dat").Ok?
      ensures r.Ok? ==>
        var args := LevelDatArgs(mcRelease, versionMap, name, seed, o).value;
        disk.files == old(disk.files)[wDir + "/level.dat" := [("Data", LevelDat.LevelData(args).value)]]
      ensures r.Err? ==> disk.files == old(disk.files)
      ensures disk.dirs == old(disk.dirs)
    {
      var worldLevelDat := wDir + "/level.dat";
      var args := LevelDatArguments(versionMap, o);
      if args.Err? {
        return Err(args.error);
      }
      r := SaveLevelDat(disk, worldLevelDat, args.value);
    }
  }

  /** The last two statements of `create_level_dat`: `LevelFile.from_arguments`
      and `save`. */
  method SaveLevelDat(disk: Disk, path: string, args: Fields) returns (r: Result<(), WorldError>)
    modifies disk
    ensures r.Ok? <==> LevelDat.LevelData(args).Ok? && SaveResult(old(disk.dirs), path).Ok?
    ensures r.Ok? ==> disk.files == old(disk.files)[path := [("Data", LevelDat.LevelData(args).value)]]
    ensures r.Err? ==> disk.files == old(disk.files)
    ensures disk.dirs == old(disk.dirs)
  {
    var levelFile := LevelDat.FromArguments(args);
    if levelFile.Err? {
      return Err(Level(levelFile.error));
    }
    var saved := disk.Save(path, levelFile.value.root);
    if saved.Err? {
      return Err(Os(saved.error));
    }
    return Ok(());
  }

  /** Once the world directory exists, the datapacks directory can be made
      there; before, `mkdir` fails. */
  lemma DatapackDirectoryNeedsWorld(wDir: string, dirs: set<string>, files: set<string>)
    requires wDir != ""
    ensures Parent(wDir + "/datapacks") == wDir
    ensures wDir !in dirs ==> MkdirResult(dirs, files, wDir + "/datapacks").Err?
    ensures wDir !in dirs && wDir + "/datapacks" !in dirs && wDir + "/datapacks" !in files ==>
      MkdirResult(dirs, files, wDir + "/datapacks") == Err(FileNotFound(wDir + "/datapacks"))
    ensures wDir in dirs && wDir + "/datapacks" !in dirs && wDir + "/datapacks" !in files ==>
      MkdirResult(dirs, files, wDir + "/datapacks") == Ok(())
  {
    SplitSnoc(wDir, '/', "datapacks");
    assert wDir + "/datapacks" == wDir + ['/'] + "datapacks";
  }

  /** level.dat is saved inside the world directory. */
  lemma LevelDatInWorld(wDir: string, dirs: set<string>)
    requires wDir != ""
    ensures Parent(wDir + "/level.dat") == wDir
    ensures wDir in dirs && wDir + "/level.dat" !in dirs ==> SaveResult(dirs, wDir + "/level.dat") == Ok(())
    ensures wDir !in dirs ==> SaveResult(dirs, wDir + "/level.dat").Err?
  {
    SplitSnoc(wDir, '/', "level.dat");
    assert wDir + "/level.dat" == wDir + ['/'] + "level.dat";
  }
}
