/**
 * `Datapack` of datapack_creator/elements/datapacks/base_datapack.py: the
 * same accumulation of `(path, data)` entries as the fast_world_creator
 * pack, with `pack_format` 5 and with the paths of `add_datapack_file`
 * placed under the element path `data/<namespace>` of `ElementBase`.
 */
module CreatorDatapacks {
  import opened Json
  import Elements
  import Advancements
  import opened Datapacks

  class CreatorDatapack {
    /** The class attributes each pack class sets. */
    const name: string
    const description: string
    /** `datapack_name` of `ElementBase`, set to the class `name`. */
    var datapackName: string
    var files: seq<Entry>

    constructor(name: string, description: string)
      ensures this.name == name && this.description == description
      ensures datapackName == name && files == []
    {
      this.name := name;
      this.description := description;
      datapackName := name;
      files := [];
    }

    /** `get_path` of `ElementBase`. */
    function Path(): (p: string)
      reads this
      ensures p == "data/" + datapackName
    {
      Elements.ElementPath(datapackName)
    }

    /** `add_datapack_file`: one entry at the end, its path inside the
        namespace folder. */
    method AddDatapackFile(pathInDp: string, data: Content)
      modifies this
      ensures datapackName == old(datapackName)
      ensures files == old(files) + [Entry("data/" + datapackName + "/" + pathInDp, data)]
    {
      files := files + [Entry(Path() + "/" + pathInDp, data)];
    }

    /** `add_recipe_file`: `data/<namespace>/recipes/<name>.json`. */
    method AddRecipeFile(recipeName: string, data: Content)
      modifies this
      ensures datapackName == old(datapackName)
      ensures files == old(files) + [Entry("data/" + datapackName + "/recipes/" + recipeName + ".json", data)]
    {
      AddDatapackFile("recipes/" + recipeName + ".json", data);
      assert "data/" + datapackName + "/" + ("recipes/" + recipeName + ".json")
        == "data/" + datapackName + "/recipes/" + recipeName + ".json";
    }

    /** `add_advancement`: the advancement's own path and data, not placed
        under this pack's folder. */
    method AddAdvancement(adv: Advancements.Advancement)
      modifies this
      ensures datapackName == old(datapackName)
      ensures files == old(files) + [Entry(adv.Path(), Dumped(JObj(adv.ToData())))]
    {
      files := files + [Entry(adv.Path(), Dumped(JObj(adv.ToData())))];
    }

    /** Appends what one generation hook adds. */
    method AddAll(entries: seq<Entry>)
      modifies this
      ensures datapackName == old(datapackName)
      ensures files == old(files) + entries
    {
      files := files + entries;
    }

    /** `store`: `writable` says whether `_store` succeeds; any failure is
        caught and reported as False, and nothing is written. */
    method Store(folder: PackFolder, writable: bool) returns (ok: bool)
      modifies folder
      ensures ok == writable
      ensures folder.files == if writable then old(folder.files)[name + ".zip" := Zip(files)] else old(folder.files)
    {
      if writable {
        folder.files := folder.files[name + ".zip" := Zip(files)];
      }
      ok := writable;
    }

    /** `create_datapack_files`: the manifest with `pack_format` 5, then
        recipes, functions, advancements and others, then `store`. */
    method CreateDatapackFiles(g: Generation, folder: PackFolder, writable: bool) returns (ok: bool)
      modifies this, folder
      ensures files == old(files) + [Manifest(5, description)] + Generated(g)
      ensures ok == writable
      ensures folder.files == if writable then old(folder.files)[name + ".zip" := Zip(files)] else old(folder.files)
    {
      files := files + [Manifest(5, description)];
      CreateRecipes(g);
      AddAll(g.functions);
      AddAll(g.advancements);
      AddAll(g.others);
      ok := Store(folder, writable);
    }

    /** `_create_recipes`: the seven recipe hooks in their fixed order. */
    method CreateRecipes(g: Generation)
      modifies this
      ensures datapackName == old(datapackName) && files == old(files) + Recipes(g)
    {
      AddAll(g.shaped);
      AddAll(g.shapeless);
      AddAll(g.smelting);
      AddAll(g.smoking);
      AddAll(g.blasting);
      AddAll(g.campfire);
      AddAll(g.stonecutting);
    }
  }
}
