/**
 * Data pack file accumulation (fast_world_creator/datapacks): a pack
 * collects `(path, data)` entries in a list, in the order it generates
 * them, and `store` writes them as one ZIP archive under `datapacks/`.
 * The archive format and the file system are abstracted: the `datapacks`
 * folder is a map from file names to what was written there.
 */
module Datapacks {
  import opened Json
  import Advancements

  /** An entry's data: a text, or the text `json.dumps` makes of a value. */
  datatype Content = Text(text: string) | Dumped(doc: Json)

  /** One `{"path": ..., "data": ...}` element of `datapack_files`. */
  datatype Entry = Entry(path: string, data: Content)

  /** A file in the `datapacks` folder: an archive holding the given entries
      in order, or a copy of a file found elsewhere. */
  datatype PackFile = Zip(entries: seq<Entry>) | Copy(source: string)

  /** The `datapacks` folder of the world. */
  class PackFolder {
    var files: map<string, PackFile>

    constructor(files: map<string, PackFile>)
      ensures this.files == files
    {
      this.files := files;
    }
  }

  /** `pack.mcmeta` with the given `pack_format`. */
  function Manifest(format: int, description: string): Entry {
    Entry("pack.mcmeta", Dumped(JObj([("pack", JObj([("pack_format", JInt(format)), ("description", JStr(description))]))])))
  }

  /** The entries the generation hooks of a pack append, hook by hook; the
      base class's hooks append nothing. */
  datatype Generation = Generation(
    shaped: seq<Entry>, shapeless: seq<Entry>, smelting: seq<Entry>, smoking: seq<Entry>,
    blasting: seq<Entry>, campfire: seq<Entry>, stonecutting: seq<Entry>,
    functions: seq<Entry>, advancements: seq<Entry>, others: seq<Entry>)

  /** The base class's hooks. */
  const NoGeneration: Generation := Generation([], [], [], [], [], [], [], [], [], [])

  /** `_create_recipes`: shaped, shapeless, smelting, smoking, blasting,
      campfire, stonecutting. */
  function Recipes(g: Generation): seq<Entry> {
    g.shaped + g.shapeless + g.smelting + g.smoking + g.blasting + g.campfire + g.stonecutting
  }

  /** `_create_datapack_files`: recipes, functions, advancements, others. */
  function Generated(g: Generation): seq<Entry> {
    Recipes(g) + g.functions + g.advancements + g.others
  }

  /** Where each hook's entries land in the generated list: the recipes
      first, their kinds in the fixed order, then functions, advancements
      and the others; with the base hooks nothing is generated. */
  lemma GeneratedOrder(g: Generation)
    ensures var r := Generated(g); var n := |Recipes(g)|;
      && r[..n] == Recipes(g)
      && r[n..n + |g.functions|] == g.functions
      && r[n + |g.functions|..n + |g.functions| + |g.advancements|] == g.advancements
      && r[n + |g.functions| + |g.advancements|..] == g.others
    ensures Recipes(g)[..|g.shaped|] == g.shaped
    ensures Recipes(g)[|Recipes(g)| - |g.stonecutting|..] == g.stonecutting
    ensures Generated(NoGeneration) == []
  {
    var r := Generated(g);
    var n := |Recipes(g)|;
    var f := |g.functions|;
    var a := |g.advancements|;
    assert r == Recipes(g) + g.functions + g.advancements + g.others;
    assert r[..n] == Recipes(g);
    assert r[n..n + f] == g.functions;
    assert r[n + f..n + f + a] == g.advancements;
  }

  /** `Datapack` of datapack_base.py. `name` and `description` are class
      attributes that each pack class sets. */
  class Datapack {
    const name: string
    const description: string
    var files: seq<Entry>

    constructor(name: string, description: string)
      ensures this.name == name && this.description == description && files == []
    {
      this.name := name;
      this.description := description;
      files := [];
    }

    /** `add_datapack_file`: one entry at the end, nothing else changes. */
    method AddDatapackFile(path: string, data: Content)
      modifies this
      ensures files == old(files) + [Entry(path, data)]
    {
      files := files + [Entry(path, data)];
    }

    /** `add_recipe_file`. */
    method AddRecipeFile(recipeName: string, data: Content)
      modifies this
      ensures files == old(files) + [Entry("data/" + name + "/recipes/" + recipeName + ".json", data)]
    {
      AddDatapackFile("data/" + name + "/recipes/" + recipeName + ".json", data);
    }

    /** `add_advancement`: the advancement's own path and data. */
    method AddAdvancement(adv: Advancements.Advancement)
      modifies this
      ensures files == old(files) + [Entry(adv.Path(), Dumped(JObj(adv.ToData())))]
    {
      AddDatapackFile(adv.Path(), Dumped(JObj(adv.ToData())));
    }

    /** `add_advancement_file`. */
    method AddAdvancementFile(group: string, advName: string, data: Content)
      modifies this
      ensures files == old(files) + [Entry("data/" + name + "/advancements/" + group + "/" + advName + ".json", data)]
    {
      AddDatapackFile("data/" + name + "/advancements/" + group + "/" + advName + ".json", data);
    }

    /** Appends a hook's entries one by one. */
    method AddAll(entries: seq<Entry>)
      modifies this
      ensures files == old(files) + entries
    {
      for i := 0 to |entries|
        invariant files == old(files) + entries[..i]
      {
        assert entries[..i + 1] == entries[..i] + [entries[i]];
        AddDatapackFile(entries[i].path, entries[i].data);
      }
      assert entries[..|entries|] == entries;
    }

    /** `store`: `writable` says whether writing `datapacks/<name>.zip`
        succeeds. A failure is caught and reported as False, and nothing is
        written; on success the archive holds the entries in list order. */
    method Store(folder: PackFolder, writable: bool) returns (ok: bool)
      modifies folder
      ensures ok == writable
      ensures folder.files == if writable then old(folder.files)[name + ".zip" := Zip(files)] else old(folder.files)
    {
      if writable {
        folder.files := folder.files[name + ".zip" := Zip(files)];
        ok := true;
      } else {
        ok := false;
      }
    }

    /** `create_datapack_files`: the manifest, then what the hooks generate
        in their fixed order, then the result of `store`. */
    method CreateDatapackFiles(g: Generation, folder: PackFolder, writable: bool) returns (ok: bool)
      modifies this, folder
      ensures files == old(files) + [Manifest(1, description)] + Generated(g)
      ensures ok == writable
      ensures folder.files == if writable then old(folder.files)[name + ".zip" := Zip(files)] else old(folder.files)
    {
      AddDatapackFile("pack.mcmeta", Manifest(1, description).data);
      CreateRecipes(g);
      AddAll(g.functions);
      AddAll(g.advancements);
      AddAll(g.others);
      ok := Store(folder, writable);
    }

    /** `_create_recipes`: the seven recipe hooks in their fixed order. */
    method CreateRecipes(g: Generation)
      modifies this
      ensures files == old(files) + Recipes(g)
    {
      AddAll(g.shaped);
      AddAll(g.shapeless);
      AddAll(g.smelting);
      AddAll(g.smoking);
      AddAll(g.blasting);
      AddAll(g.campfire);
      AddAll(g.stonecutting);
    }
  }

  /** `Datapack` of base_datapack.py, the base of the random-loot and the
      external packs. Its `_create_datapack_files` and `store` do nothing. */
  class MinimalDatapack {
    var name: string
    var description: string
    var files: seq<Entry>
    var defaultEnabled: bool

    constructor()
      ensures name == "" && description == "" && files == [] && defaultEnabled
    {
      name := "";
      description := "";
      files := [];
      defaultEnabled := true;
    }

    /** `__call__`: the pack itself. */
    method Call() returns (r: MinimalDatapack)
      ensures r == this
    {
      r := this;
    }

    /** `create_datapack_files`: the base hooks change nothing. */
    method CreateDatapackFiles()
      ensures files == old(files) && name == old(name)
    {
    }
  }
}
