/**
 * FastWorldCreator.py: how the form's values become the arguments of a
 * world creation (`parse_generator_options` and the coercions of `create`).
 * The window, its layout and its event loop are not modelled; the values it
 * hands over are a map from element keys to values.
 */
module FastWorldCreatorApp {
  import opened Wrappers
  import opened Json
  import opened PyStr
  import opened MinecraftUtils
  import WorldCreator

  /** What a form element yields: nothing, a checkbox, a number or a text. */
  datatype UiValue = UNone | UBool(b: bool) | UInt(i: int) | UText(s: string)

  type Values = map<string, UiValue>

  datatype UiError =
    | KeyError(key: string)        // `values[key]` or `installed_versions[key]` with no such key
    | AttributeError(key: string)  // a text method called on a value that is not a text
    | ValueError(key: string)      // `int()` of a non-number, `list.index` of a missing label
    | TypeError(key: string)       // `int(None)`, or a non-text where a text is concatenated

  /** `values.get(key)`. */
  function GetValue(values: Values, key: string): UiValue {
    if key in values then values[key] else UNone
  }

  predicate UiTruthy(v: UiValue) {
    match v
    case UNone => false
    case UBool(b) => b
    case UInt(i) => i != 0
    case UText(s) => s != ""
  }

  /** `str(v)`. */
  function StrOf(v: UiValue): string {
    match v
    case UNone => "None"
    case UBool(b) => BoolToString(b)
    case UInt(i) => IntToString(i)
    case UText(s) => s
  }

  /** The value as handed on to the level data dict. */
  function ToJson(v: UiValue): Json {
    match v
    case UNone => JNull
    case UBool(b) => JBool(b)
    case UInt(i) => JInt(i)
    case UText(s) => JStr(s)
  }

  /** `str(v).lower()`, how every game rule is sent. */
  function GameruleText(v: UiValue): string {
    Lower(StrOf(v))
  }

  /** A missing rule is sent as "none", a checkbox as "true"/"false", a
      number as its decimal text, and a text lower-cased. */
  lemma GameruleTextSpec(v: UiValue)
    ensures v.UNone? ==> GameruleText(v) == "none"
    ensures v.UBool? ==> GameruleText(v) == if v.b then "true" else "false"
    ensures v.UInt? ==> GameruleText(v) == IntToString(v.i)
    ensures v.UText? ==> GameruleText(v) == Lower(v.s)
  {
    if v.UInt? {
      var t := IntToString(v.i);
      var m: nat := if v.i < 0 then -v.i else v.i;
      assert forall j :: 0 <= j < |NatToString(m)| ==> IsDigit(NatToString(m)[j]);
      if v.i < 0 {
        assert forall j :: 1 <= j < |t| ==> t[j] == NatToString(m)[j - 1];
      }
      LowerNoUpper(t);
    }
  }

  // ----- first-occurrence dicts -----

  /** The distinct keys in the order of their first occurrence. */
  function Dedup(ks: seq<string>): (r: seq<string>)
    ensures forall k :: k in r <==> k in ks
  {
    if |ks| == 0 then []
    else
      var d := Dedup(ks[..|ks| - 1]);
      assert ks == ks[..|ks| - 1] + [ks[|ks| - 1]];
      if ks[|ks| - 1] in d then d else d + [ks[|ks| - 1]]
  }

  lemma {:induction false} DedupDistinct(ks: seq<string>)
    ensures forall i, j :: 0 <= i < j < |Dedup(ks)| ==> Dedup(ks)[i] != Dedup(ks)[j]
  {
    if |ks| > 0 {
      DedupDistinct(ks[..|ks| - 1]);
    }
  }

  /** `d[k] = value(k)` for each key in order, from an empty dict: the
      shape of `dict.fromkeys` and of the game rule loop. */
  function FillKeys(ks: seq<string>, value: string -> Json): Fields {
    if |ks| == 0 then []
    else Put(FillKeys(ks[..|ks| - 1], value), ks[|ks| - 1], value(ks[|ks| - 1]))
  }

  /** The filled dict holds each distinct key once, in first-occurrence
      order. */
  lemma {:induction false} FillKeysKeys(ks: seq<string>, value: string -> Json)
    ensures Keys(FillKeys(ks, value)) == Dedup(ks)
    ensures UniqueKeys(FillKeys(ks, value))
    ensures forall k :: HasKey(FillKeys(ks, value), k) <==> k in ks
  {
    if |ks| > 0 {
      var init := ks[..|ks| - 1];
      var last := ks[|ks| - 1];
      var f := FillKeys(init, value);
      FillKeysKeys(init, value);
      PutKeys(f, last, value(last));
      PutUnique(f, last, value(last));
    }
  }

  /** Every key of the list holds its value. */
  lemma {:induction false} FillKeysGet(ks: seq<string>, value: string -> Json)
    ensures forall k :: k in ks ==> Get(FillKeys(ks, value), k) == Some(value(k))
  {
    if |ks| > 0 {
      var init := ks[..|ks| - 1];
      var last := ks[|ks| - 1];
      FillKeysGet(init, value);
      PutGet(FillKeys(init, value), last, value(last));
      assert ks == init + [last];
    }
  }

  /** `dict.fromkeys(keys)`. */
  function FromKeys(ks: seq<string>): Fields {
    FillKeys(ks, _ => JNull)
  }

  // ----- `parse_generator_options` -----

  /** One comma-separated piece of the layer text. */
  function LayerOf(piece: string): WorldCreator.FlatLayer {
    if '*' in piece then WorldCreator.Starred(Split(piece, '*')) else WorldCreator.Plain(piece)
  }

  function LayersOf(text: string): seq<WorldCreator.FlatLayer> {
    var pieces := Split(text, ',');
    seq(|pieces|, i requires 0 <= i < |pieces| => LayerOf(pieces[i]))
  }

  /** `parse_flat_layers`, one layer per piece. */
  method ParseFlatLayers(text: string) returns (layers: seq<WorldCreator.FlatLayer>)
    ensures layers == LayersOf(text)
  {
    layers := [];
    var pieces := Split(text, ',');
    for i := 0 to |pieces|
      invariant |layers| == i
      invariant forall j :: 0 <= j < i ==> layers[j] == LayerOf(pieces[j])
    {
      var layer := pieces[i];
      if '*' in layer {
        layers := layers + [WorldCreator.Starred(Split(layer, '*'))];
      } else {
        layers := layers + [WorldCreator.Plain(layer)];
      }
    }
  }

  /** One layer per comma-separated piece, in order; a piece with `*` is
      split into at least a count and a block that join back to the piece,
      so every layer the form makes has a block; a piece without `*` is a
      single layer of that block. */
  lemma LayersOfSpec(text: string)
    ensures |LayersOf(text)| == |Split(text, ',')|
    ensures WorldCreator.LayersOk(LayersOf(text))
    ensures forall i :: 0 <= i < |LayersOf(text)| ==>
      var piece := Split(text, ',')[i];
      (LayersOf(text)[i].Plain? <==> '*' !in piece)
      && (LayersOf(text)[i].Plain? ==> LayersOf(text)[i].block == piece)
      && (LayersOf(text)[i].Starred? ==>
            Join(LayersOf(text)[i].parts, '*') == piece && '*' !in LayersOf(text)[i].parts[0])
  {
    var pieces := Split(text, ',');
    forall i | 0 <= i < |pieces| ensures WorldCreator.LayerOk(LayerOf(pieces[i]))
      && ('*' in pieces[i] ==> Join(Split(pieces[i], '*'), '*') == pieces[i])
    {
      if '*' in pieces[i] {
        SplitHasSep(pieces[i], '*');
        JoinSplit(pieces[i], '*');
      }
    }
  }

  /** `[x for x in items if values[prefix + x]]`: KeyError at the first
      item without an element. */
  function Checked(items: seq<string>, prefix: string, values: Values): Result<seq<string>, UiError> {
    if |items| == 0 then Ok([])
    else
      var key := prefix + items[0];
      if key !in values then Err(KeyError(key))
      else
        var rest :- Checked(items[1..], prefix, values);
        Ok(if UiTruthy(values[key]) then [items[0]] + rest else rest)
  }

  /** `a` is `b` with some items left out, in order. */
  predicate IsSubsequence(a: seq<string>, b: seq<string>)
    decreases |b|
  {
    |a| == 0 || (|b| > 0 && ((a[0] == b[0] && IsSubsequence(a[1..], b[1..])) || IsSubsequence(a, b[1..])))
  }

  /** The filter fails exactly when an item has no element; otherwise it keeps
      exactly the checked items, in their order. */
  lemma {:induction false} CheckedSpec(items: seq<string>, prefix: string, values: Values)
    ensures Checked(items, prefix, values).Ok? <==> forall x :: x in items ==> prefix + x in values
    ensures Checked(items, prefix, values).Ok? ==>
      var r := Checked(items, prefix, values).value;
      && IsSubsequence(r, items)
      && (forall x :: x in r ==> x in items)
      && (forall x :: x in items ==> (x in r <==> UiTruthy(GetValue(values, prefix + x))))
  {
    if |items| > 0 {
      CheckedSpec(items[1..], prefix, values);
      assert forall x :: x in items <==> x == items[0] || x in items[1..];
      var r := Checked(items, prefix, values);
      if r.Ok? {
        var rest := Checked(items[1..], prefix, values).value;
        if UiTruthy(values[prefix + items[0]]) {
          assert r.value == [items[0]] + rest;
          assert r.value[1..] == rest;
        }
      }
    }
  }

  /** `values.get(key)` as a text; AttributeError at `.lower()` or
      `.split()` otherwise. */
  function TextOf(values: Values, key: string): Result<string, UiError> {
    match GetValue(values, key)
    case UText(s) => Ok(s)
    case _ => Err(AttributeError(key))
  }

  /** `int(values.get(key))`. */
  function IntOf(values: Values, key: string): Result<int, UiError> {
    match GetValue(values, key)
    case UNone => Err(TypeError(key))
    case UBool(b) => Ok(if b then 1 else 0)
    case UInt(i) => Ok(i)
    case UText(s) => if ParseInt(s).Some? then Ok(ParseInt(s).value) else Err(ValueError(key))
  }

  /** `parse_generator_options(values)`: the entries in the order the dict
      literal evaluates them; `biomes` is the game's biome list. */
  function ParseGeneratorOptions(values: Values, biomes: seq<string>): Result<WorldCreator.GeneratorOpts, UiError> {
    var biomeType :- TextOf(values, "buffet_biome_type");
    var buffetBiomes :- Checked(biomes, "buffet_biome_", values);
    var size :- IntOf(values, "buffet_size");
    var block :- TextOf(values, "buffet_block");
    var chunkType :- TextOf(values, "buffet_chunk_type");
    var flatBiome :- TextOf(values, "flat_biome");
    var layers :- TextOf(values, "flat_layers");
    var structures :- TextOf(values, "flat_structures");
    Ok(WorldCreator.GeneratorOpts(
      Lower(biomeType), buffetBiomes, size, block,
      if UiTruthy(GetValue(values, "buffet_fluid")) then "water" else "lava",
      Lower(chunkType), flatBiome, LayersOf(layers), FromKeys(Split(structures, ','))))
  }

  /** What the options hold: the fluid is water exactly for a set checkbox,
      the type names are lower-cased, the layers and structures come from
      their comma-separated texts, the structures once each with None. */
  lemma ParseGeneratorOptionsSpec(values: Values, biomes: seq<string>)
    requires ParseGeneratorOptions(values, biomes).Ok?
    ensures var g := ParseGeneratorOptions(values, biomes).value;
      && (g.buffetFluid == "water" <==> UiTruthy(GetValue(values, "buffet_fluid")))
      && (g.buffetFluid == "lava" <==> !UiTruthy(GetValue(values, "buffet_fluid")))
      && g.buffetBiomeType == Lower(GetValue(values, "buffet_biome_type").s)
      && g.buffetChunkType == Lower(GetValue(values, "buffet_chunk_type").s)
      && IsSubsequence(g.buffetBiomes, biomes)
      && (forall b :: b in biomes ==> (b in g.buffetBiomes <==> UiTruthy(GetValue(values, "buffet_biome_" + b))))
      && g.flatLayers == LayersOf(GetValue(values, "flat_layers").s)
      && WorldCreator.LayersOk(g.flatLayers)
      && Keys(g.flatStructures) == Dedup(Split(GetValue(values, "flat_structures").s, ','))
      && (forall k :: k in Split(GetValue(values, "flat_structures").s, ',') ==> Get(g.flatStructures, k) == Some(JNull))
  {
    CheckedSpec(biomes, "buffet_biome_", values);
    LayersOfSpec(GetValue(values, "flat_layers").s);
    FillKeysKeys(Split(GetValue(values, "flat_structures").s, ','), _ => JNull);
    FillKeysGet(Split(GetValue(values, "flat_structures").s, ','), _ => JNull);
  }

  // ----- `create` -----

  /** The game rule loop of `create`: every rule is sent as a lower-cased
      text. */
  method UpdatedGamerules(rules: seq<string>, values: Values) returns (r: Fields)
    ensures r == FillKeys(rules, k => JStr(GameruleText(GetValue(values, k))))
  {
    ghost var value := k => JStr(GameruleText(GetValue(values, k)));
    r := [];
    for i := 0 to |rules|
      invariant r == FillKeys(rules[..i], value)
    {
      assert rules[..i + 1][..i] == rules[..i];
      r := Put(r, rules[i], JStr(GameruleText(GetValue(values, rules[i]))));
    }
    assert rules[..|rules|] == rules;
  }

  /** The labels of a combo box filled from an enum: the member names in
      title case. */
  const DifficultyLabels: seq<string> := ["Peaceful", "Easy", "Normal", "Hard", "Hardcore"]

  function Label(d: Difficulty): string {
    DifficultyLabels[d.Value()]
  }

  /** `list.index(v)`: the first position of a text. */
  function IndexOf(labels: seq<string>, v: UiValue): (r: Option<nat>)
    ensures r.Some? ==>
      r.value < |labels| && v == UText(labels[r.value]) && forall j :: 0 <= j < r.value ==> UText(labels[j]) != v
    ensures r.None? ==> forall j :: 0 <= j < |labels| ==> UText(labels[j]) != v
  {
    if |labels| == 0 then None
    else if v == UText(labels[0]) then Some(0)
    else match IndexOf(labels[1..], v)
      case None => None
      case Some(i) => Some(i + 1)
  }

  /** Choosing a difficulty's label gives back that difficulty's value. */
  lemma LabelIndex(d: Difficulty)
    ensures IndexOf(DifficultyLabels, UText(Label(d))) == Some(d.Value())
  {
    var labels := DifficultyLabels;
    assert forall i, j :: 0 <= i < j < |labels| ==> labels[i] != labels[j];
  }

  /** The arguments `create` passes to `core.run`. */
  datatype RunArgs = RunArgs(
    release: string,
    versionPath: string,
    worldName: string,
    seed: UiValue,
    difficulty: nat,
    datapacks: seq<string>,
    gamerules: Fields,
    gameMode: nat,
    generator: string,
    generatorOptions: WorldCreator.GeneratorOpts,
    raining: UiValue,
    thundering: UiValue)

  function LabelIndexOf(labels: seq<string>, values: Values, key: string): Result<nat, UiError> {
    match IndexOf(labels, GetValue(values, key))
    case None => Err(ValueError(key))
    case Some(i) => Ok(i)
  }

  /** The arguments of `core.run` once the game rules are filled, with the
      thunder flag read from `thunderKey`; the keyword arguments are
      evaluated in the order of the call. */
  function RunArgsFrom(
    values: Values, gamerules: Fields, installed: map<string, string>, datapackNames: seq<string>,
    gameModes: seq<string>, biomes: seq<string>, thunderKey: string): Result<RunArgs, UiError>
  {
    var release := GetValue(values, "release");
    if !release.UText? || release.s !in installed then Err(KeyError(StrOf(release)))
    else
      var name :- TextOf(values, "name");
      var difficulty :- LabelIndexOf(DifficultyLabels, values, "difficulty");
      var datapacks :- Checked(datapackNames, "", values);
      var gameMode :- LabelIndexOf(gameModes, values, "game_mode");
      var generator :- TextOf(values, "generator");
      var options :- ParseGeneratorOptions(values, biomes);
      Ok(RunArgs(release.s, installed[release.s], ReplaceChar(name, ' ', '_'), GetValue(values, "seed"),
                 difficulty, datapacks, gamerules, gameMode, Lower(generator), options,
                 GetValue(values, "rain"), GetValue(values, thunderKey)))
  }

  /** The game rules `create` sends. */
  function SentGamerules(rules: seq<string>, values: Values): Fields {
    FillKeys(rules, k => JStr(GameruleText(GetValue(values, k))))
  }

  /** `create` as written: the thunder flag is read from `"thunder"`. */
  function RunArgsAsWritten(
    values: Values, installed: map<string, string>, datapackNames: seq<string>, rules: seq<string>,
    gameModes: seq<string>, biomes: seq<string>): Result<RunArgs, UiError>
  {
    RunArgsFrom(values, SentGamerules(rules, values), installed, datapackNames, gameModes, biomes, "thunder")
  }

  /** `create` reading the flag from the key of the thunder checkbox,
      `"thundering"`. */
  function CreateRunArgs(
    values: Values, installed: map<string, string>, datapackNames: seq<string>, rules: seq<string>,
    gameModes: seq<string>, biomes: seq<string>): Result<RunArgs, UiError>
  {
    RunArgsFrom(values, SentGamerules(rules, values), installed, datapackNames, gameModes, biomes, "thundering")
  }

  /** `create`: the game rule loop, then the arguments of `core.run`. */
  method Create(
    values: Values, installed: map<string, string>, datapackNames: seq<string>, rules: seq<string>,
    gameModes: seq<string>, biomes: seq<string>) returns (r: Result<RunArgs, UiError>)
    ensures r == CreateRunArgs(values, installed, datapackNames, rules, gameModes, biomes)
  {
    var gamerules := UpdatedGamerules(rules, values);
    r := RunArgsFrom(values, gamerules, installed, datapackNames, gameModes, biomes, "thundering");
  }

  /** A release that is not installed is a KeyError, before anything else
      is read. */
  lemma ReleaseMissing(
    values: Values, gamerules: Fields, installed: map<string, string>, datapackNames: seq<string>,
    gameModes: seq<string>, biomes: seq<string>, thunderKey: string)
    requires GetValue(values, "release").UText? ==> GetValue(values, "release").s !in installed
    ensures RunArgsFrom(values, gamerules, installed, datapackNames, gameModes, biomes, thunderKey)
      == Err(KeyError(StrOf(GetValue(values, "release"))))
  {
  }

  /** What `create` hands on: the release and its installed path, the name
      with every space made an underscore, difficulty and game mode as the
      positions of the chosen labels, the checked data packs in order, the
      generator lower-cased, rain and thunder as read. */
  lemma RunArgsSpec(
    values: Values, gamerules: Fields, installed: map<string, string>, datapackNames: seq<string>,
    gameModes: seq<string>, biomes: seq<string>, thunderKey: string)
    requires RunArgsFrom(values, gamerules, installed, datapackNames, gameModes, biomes, thunderKey).Ok?
    ensures var a := RunArgsFrom(values, gamerules, installed, datapackNames, gameModes, biomes, thunderKey).value;
      && GetValue(values, "release") == UText(a.release) && a.release in installed && a.versionPath == installed[a.release]
      && a.worldName == ReplaceChar(GetValue(values, "name").s, ' ', '_') && ' ' !in a.worldName
      && a.difficulty < |DifficultyLabels| && GetValue(values, "difficulty") == UText(DifficultyLabels[a.difficulty])
      && a.gameMode < |gameModes| && GetValue(values, "game_mode") == UText(gameModes[a.gameMode])
      && IsSubsequence(a.datapacks, datapackNames)
      && (forall d :: d in datapackNames ==> (d in a.datapacks <==> UiTruthy(GetValue(values, d))))
      && a.gamerules == gamerules
      && a.generator == Lower(GetValue(values, "generator").s)
      && a.generatorOptions == ParseGeneratorOptions(values, biomes).value
      && a.seed == GetValue(values, "seed")
      && a.raining == GetValue(values, "rain") && a.thundering == GetValue(values, thunderKey)
  {
    CheckedSpec(datapackNames, "", values);
    assert forall d :: "" + d == d;
  }

  /** Every game rule is sent once, under its own name, as `str(v).lower()`. */
  lemma SentGamerulesSpec(rules: seq<string>, values: Values)
    ensures Keys(SentGamerules(rules, values)) == Dedup(rules)
    ensures UniqueKeys(SentGamerules(rules, values))
    ensures forall k :: k in rules ==> Get(SentGamerules(rules, values), k) == Some(JStr(GameruleText(GetValue(values, k))))
  {
    FillKeysKeys(rules, k => JStr(GameruleText(GetValue(values, k))));
    FillKeysGet(rules, k => JStr(GameruleText(GetValue(values, k))));
  }

  /** As written, the thunder flag is read from a key no element of the
      window has: it is None whatever the thunder checkbox says, and the
      level data's `thundering` is false. */
  lemma ThunderIgnoredAsWritten(
    values: Values, installed: map<string, string>, datapackNames: seq<string>, rules: seq<string>,
    gameModes: seq<string>, biomes: seq<string>, o: WorldCreator.LevelOptions, release: string,
    versionMap: map<string, int>, seed: int)
    requires "thunder" !in values
    requires RunArgsAsWritten(values, installed, datapackNames, rules, gameModes, biomes).Ok?
    requires o.thundering == ToJson(RunArgsAsWritten(values, installed, datapackNames, rules, gameModes, biomes).value.thundering)
    requires 0 <= o.difficulty <= 4
    ensures RunArgsAsWritten(values, installed, datapackNames, rules, gameModes, biomes).value.thundering == UNone
    ensures var d := WorldCreator.LevelDatDict(release, versionMap, o.generator, seed, o).value;
      d[10] == ("thundering", JBool(false))
  {
    RunArgsThunder(values, SentGamerules(rules, values), installed, datapackNames, gameModes, biomes, "thunder");
    WorldCreator.WeatherFields(release, versionMap, o.generator, seed, o);
  }

  /** Reading the checkbox's own key, a set thunder checkbox reaches the
      level data: `thundering` is set and it forces rain. */
  lemma ThunderKept(
    values: Values, installed: map<string, string>, datapackNames: seq<string>, rules: seq<string>,
    gameModes: seq<string>, biomes: seq<string>, o: WorldCreator.LevelOptions, release: string,
    versionMap: map<string, int>, seed: int)
    requires CreateRunArgs(values, installed, datapackNames, rules, gameModes, biomes).Ok?
    requires o.thundering == ToJson(CreateRunArgs(values, installed, datapackNames, rules, gameModes, biomes).value.thundering)
    requires 0 <= o.difficulty <= 4
    ensures CreateRunArgs(values, installed, datapackNames, rules, gameModes, biomes).value.thundering
      == GetValue(values, "thundering")
    ensures GetValue(values, "thundering") == UBool(true) ==>
      var d := WorldCreator.LevelDatDict(release, versionMap, o.generator, seed, o).value;
      d[10].0 == "thundering" && Truthy(d[10].1) && d[9] == ("raining", JBool(true))
  {
    RunArgsThunder(values, SentGamerules(rules, values), installed, datapackNames, gameModes, biomes, "thundering");
    WorldCreator.WeatherFields(release, versionMap, o.generator, seed, o);
  }

  /** The thunder flag is the value under `thunderKey`. */
  lemma RunArgsThunder(
    values: Values, gamerules: Fields, installed: map<string, string>, datapackNames: seq<string>,
    gameModes: seq<string>, biomes: seq<string>, thunderKey: string)
    requires RunArgsFrom(values, gamerules, installed, datapackNames, gameModes, biomes, thunderKey).Ok?
    ensures RunArgsFrom(values, gamerules, installed, datapackNames, gameModes, biomes, thunderKey).value.thundering
      == GetValue(values, thunderKey)
  {
  }
}
