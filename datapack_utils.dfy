/**
 * Helpers of fast_world_creator/datapacks/datapack_utils.py: the recipe
 * builders (as the dict handed to `json.dumps`), the extraction of a jar's
 * loot tables, and the list of data packs offered to the user.
 */
module DatapackUtils {
  import opened Wrappers
  import opened Json
  import opened PyStr
  import Elements
  import RandomLoot
  import ExternalDatapacks

  // ----- recipe builders -----

  /** `{"item": result, "count": amount}`. */
  function ItemCount(result: string, amount: int): Json {
    JObj([("item", JStr(result)), ("count", JInt(amount))])
  }

  /** `create_shaped_crafting_recipe`. */
  function ShapedCraftingRecipe(pattern: Json, key: Json, result: string, resultAmount: int := 1): (r: Fields)
    ensures Keys(r) == ["type", "pattern", "key", "result"]
  {
    [("type", JStr("minecraft:crafting_shaped")), ("pattern", pattern), ("key", key), ("result", ItemCount(result, resultAmount))]
  }

  /** `create_shapeless_crafting_recipe`. */
  function ShapelessCraftingRecipe(items: seq<string>, result: string, resultAmount: int := 1): (r: Fields)
    ensures Keys(r) == ["type", "ingredients", "result"]
  {
    [("type", JStr("minecraft:crafting_shapeless")), ("ingredients", JArr(Elements.IngredientList(items))), ("result", ItemCount(result, resultAmount))]
  }

  /** `create_furnace_recipe`: the result is passed through as given. */
  function FurnaceRecipe(recipeType: string, items: seq<string>, result: Json, xp: Json, cookingTime: Json): (r: Fields)
    ensures Keys(r) == ["type", "ingredient", "result", "experience", "cookingtime"]
  {
    [("type", JStr(recipeType)), ("ingredient", JArr(Elements.IngredientList(items))), ("result", result),
     ("experience", xp), ("cookingtime", cookingTime)]
  }

  const Xp: Json := JReal(0.1)

  function SmeltingRecipe(items: seq<string>, result: Json, xp: Json := Xp, cookingTime: Json := JInt(200)): Fields {
    FurnaceRecipe("minecraft:smelting", items, result, xp, cookingTime)
  }

  function SmokingRecipe(items: seq<string>, result: Json, xp: Json := Xp, cookingTime: Json := JInt(100)): Fields {
    FurnaceRecipe("minecraft:smoking", items, result, xp, cookingTime)
  }

  function BlastingRecipe(items: seq<string>, result: Json, xp: Json := Xp, cookingTime: Json := JInt(100)): Fields {
    FurnaceRecipe("minecraft:blasting", items, result, xp, cookingTime)
  }

  /** A shaped recipe written by this helper holds the same entries as the
      one `ShapedCraftingRecipe` of the element hierarchy writes without a
      group: every key maps to the same value, only the key order differs. */
  lemma ShapedAgreesWithElements(name: string, pattern: Json, key: Json, result: string, amount: int)
    ensures var e := Elements.RecipeData(Elements.ShapedCraftingRecipe(name, pattern, key, result, JInt(amount)));
      && (forall k :: Get(ShapedCraftingRecipe(pattern, key, result, amount), k) == Get(e, k))
      && Keys(e) == ["type", "result", "pattern", "key"]
  {
    var r := Elements.ShapedCraftingRecipe(name, pattern, key, result, JInt(amount));
    Elements.ShapedDataSpec(r);
    assert Elements.GroupEntry(r) == [];
    var e := Elements.RecipeData(r);
    assert e == [("type", JStr("minecraft:crafting_shaped")), ("result", ItemCount(result, amount)), ("pattern", pattern), ("key", key)];
    MovedLastLookup(("type", JStr("minecraft:crafting_shaped")), ("pattern", pattern), ("key", key), ("result", ItemCount(result, amount)));
  }

  /** Moving the last of four entries with distinct keys to the second
      place changes no lookup. */
  lemma MovedLastLookup(x0: (string, Json), x1: (string, Json), x2: (string, Json), x3: (string, Json))
    requires x0.0 != x1.0 && x0.0 != x2.0 && x0.0 != x3.0
    requires x1.0 != x2.0 && x1.0 != x3.0 && x2.0 != x3.0
    ensures forall k :: Get([x0, x1, x2, x3], k) == Get([x0, x3, x1, x2], k)
  {
    forall k
      ensures Get([x0, x1, x2, x3], k) == Get([x0, x3, x1, x2], k)
    {
      GetFour(x0, x1, x2, x3, k);
      GetFour(x0, x3, x1, x2, k);
    }
  }

  /** The lookup in four entries, spelled out. */
  lemma GetFour(x0: (string, Json), x1: (string, Json), x2: (string, Json), x3: (string, Json), k: string)
    ensures Get([x0, x1, x2, x3], k) ==
      if x0.0 == k then Some(x0.1) else if x1.0 == k then Some(x1.1)
      else if x2.0 == k then Some(x2.1) else if x3.0 == k then Some(x3.1) else None
  {
    assert [x0, x1, x2, x3] == [x0] + ([x1] + ([x2] + ([x3] + [])));
    GetCons(x3, [], k);
    GetCons(x2, [x3] + [], k);
    GetCons(x1, [x2] + ([x3] + []), k);
    GetCons(x0, [x1] + ([x2] + ([x3] + [])), k);
  }

  /** The same agreement for shapeless recipes. */
  lemma ShapelessAgreesWithElements(name: string, items: seq<string>, result: string, amount: int)
    ensures var e := Elements.RecipeData(Elements.ShapelessCraftingRecipe(name, items, result, JInt(amount)));
      && (forall k :: Get(ShapelessCraftingRecipe(items, result, amount), k) == Get(e, k))
      && Keys(e) == ["type", "result", "ingredients"]
  {
    var r := Elements.ShapelessCraftingRecipe(name, items, result, JInt(amount));
    Elements.ShapelessDataSpec(r);
    assert Elements.GroupEntry(r) == [];
    var a := ShapelessCraftingRecipe(items, result, amount);
    var e := Elements.RecipeData(r);
    var ingredients := JArr(Elements.IngredientList(items));
    assert e == [("type", JStr("minecraft:crafting_shapeless")), ("result", ItemCount(result, amount)), ("ingredients", ingredients)];
    forall k
      ensures Get(a, k) == Get(e, k)
    {
      if k == "type" {
        GetAt(a, 0, k);
        GetAt(e, 0, k);
      } else if k == "ingredients" {
        GetAt(a, 1, k);
        GetAt(e, 2, k);
      } else if k == "result" {
        GetAt(a, 2, k);
        GetAt(e, 1, k);
      } else {
        AbsentKey(a, k);
        AbsentKey(e, k);
      }
    }
  }

  /** The furnace recipes: one `{item}` per input item in order, and the
      type, result, experience and cooking time passed through. */
  lemma FurnaceRecipeSpec(recipeType: string, items: seq<string>, result: Json, xp: Json, cookingTime: Json)
    ensures var r := FurnaceRecipe(recipeType, items, result, xp, cookingTime);
      && Get(r, "type") == Some(JStr(recipeType))
      && Get(r, "ingredient") == Some(JArr(Elements.IngredientList(items)))
      && Get(r, "result") == Some(result)
      && Get(r, "experience") == Some(xp)
      && Get(r, "cookingtime") == Some(cookingTime)
  {
    var r := FurnaceRecipe(recipeType, items, result, xp, cookingTime);
    var r3 := [("experience", xp), ("cookingtime", cookingTime)];
    var r2 := [("result", result)] + r3;
    var r1 := [("ingredient", JArr(Elements.IngredientList(items)))] + r2;
    assert r == [("type", JStr(recipeType))] + r1;
    GetCons(("experience", xp), [("cookingtime", cookingTime)], "cookingtime");
    GetCons(("result", result), r3, "experience");
    GetCons(("result", result), r3, "cookingtime");
    GetCons(("ingredient", JArr(Elements.IngredientList(items))), r2, "result");
    GetCons(("ingredient", JArr(Elements.IngredientList(items))), r2, "experience");
    GetCons(("ingredient", JArr(Elements.IngredientList(items))), r2, "cookingtime");
    GetCons(("type", JStr(recipeType)), r1, "ingredient");
    GetCons(("type", JStr(recipeType)), r1, "result");
    GetCons(("type", JStr(recipeType)), r1, "experience");
    GetCons(("type", JStr(recipeType)), r1, "cookingtime");
  }

  /** The defaults: 0.1 experience for all three, 200 ticks for smelting
      and 100 for smoking and blasting. */
  lemma FurnaceDefaults(items: seq<string>, result: Json)
    ensures SmeltingRecipe(items, result) == FurnaceRecipe("minecraft:smelting", items, result, JReal(0.1), JInt(200))
    ensures SmokingRecipe(items, result) == FurnaceRecipe("minecraft:smoking", items, result, JReal(0.1), JInt(100))
    ensures BlastingRecipe(items, result) == FurnaceRecipe("minecraft:blasting", items, result, JReal(0.1), JInt(100))
  {
  }

  // ----- loot-table extraction -----

  /** The argument of `lstrip`, and the set of its characters that
      `lstrip` removes. */
  const StripArgument: string := "data/minecraft/"
  const PrefixChars: set<char> := set c | c in StripArgument

  /** Each extracted jar entry with the path, relative to the working
      directory, it is written to. */
  function Extracted(names: seq<string>): seq<(string, string)> {
    if |names| == 0 then []
    else
      var rest := Extracted(names[..|names| - 1]);
      var item := names[|names| - 1];
      if StartsWith(item, RandomLoot.LootTablePrefix) then rest + [(item, LStrip(item, PrefixChars))] else rest
  }

  /** `lstrip` with the prefix's characters cuts exactly `data/minecraft/`
      from a loot-table name, because the next character, `l`, is not one
      of them. */
  lemma LStripLootTable(item: string)
    requires StartsWith(item, RandomLoot.LootTablePrefix)
    ensures |item| >= 15 && LStrip(item, PrefixChars) == item[15..]
  {
    PrefixCharsOfLootTables();
    LStripAfter(item, RandomLoot.LootTablePrefix, 15, PrefixChars);
  }

  /** The first 15 characters of the loot-table folder are in the strip set
      and the 16th is not. */
  lemma PrefixCharsOfLootTables()
    ensures forall i :: 0 <= i < 15 ==> RandomLoot.LootTablePrefix[i] in PrefixChars
    ensures RandomLoot.LootTablePrefix[15] !in PrefixChars
  {
    var p := RandomLoot.LootTablePrefix;
    assert p[..15] == StripArgument && p[15] == 'l';
    assert forall i :: 0 <= i < 15 ==> p[i] == StripArgument[i];
  }

  /** When the text starts with `p`, whose first `k` characters are in the
      set and whose next one is not, `lstrip` removes exactly those `k`. */
  lemma LStripAfter(item: string, p: string, k: nat, chars: set<char>)
    requires StartsWith(item, p) && k < |p|
    requires forall i :: 0 <= i < k ==> p[i] in chars
    requires p[k] !in chars
    ensures LStrip(item, chars) == item[k..]
  {
    assert item == item[..k] + item[k..];
    assert item[..k] == p[..k];
    LStripPrefix(item[..k], item[k..], chars);
  }

  /** `extract_loot_tables` keeps the same names, in the same order, as the
      random-loot pack's own extraction, and writes each one at its name
      minus the 15-character `data/minecraft/`. */
  lemma {:induction false} ExtractedSpec(names: seq<string>)
    ensures |Extracted(names)| == |RandomLoot.LootTableNames(names)|
    ensures forall i :: 0 <= i < |Extracted(names)| ==>
      Extracted(names)[i].0 == RandomLoot.LootTableNames(names)[i]
      && |Extracted(names)[i].0| >= 15
      && Extracted(names)[i].1 == Extracted(names)[i].0[15..]
  {
    if |names| > 0 {
      ExtractedSpec(names[..|names| - 1]);
      var item := names[|names| - 1];
      if StartsWith(item, RandomLoot.LootTablePrefix) {
        LStripLootTable(item);
      }
    }
  }

  /** `extract_loot_tables` over the jar's name list. */
  method ExtractLootTables(names: seq<string>) returns (written: seq<(string, string)>)
    ensures written == Extracted(names)
  {
    written := [];
    for i := 0 to |names|
      invariant written == Extracted(names[..i])
    {
      assert names[..i + 1][..i] == names[..i];
      if StartsWith(names[i], RandomLoot.LootTablePrefix) {
        written := written + [(names[i], LStrip(names[i], PrefixChars))];
      }
    }
    assert names[..|names|] == names;
  }

  // ----- available data packs -----

  /** An element of the list `get_available_datapacks` returns: one of the
      three built-in pack classes, or an external pack made from an archive
      path (its name is `ExternalDatapacks.ExternalName(path)`). */
  datatype Available = RandomLootPack | ConvenientCrafting | MoreAdvancements | External(path: string)

  const Builtins: seq<Available> := [RandomLootPack, ConvenientCrafting, MoreAdvancements]

  /** One external pack per listed `.zip` file, in listing order. */
  function Externals(listing: seq<string>, folder: string): seq<Available> {
    if |listing| == 0 then []
    else
      var rest := Externals(listing[..|listing| - 1], folder);
      var z := listing[|listing| - 1];
      if EndsWith(z, ".zip") then rest + [External(folder + "/" + z)] else rest
  }

  /** Every listed archive is offered, every offered pack comes from a listed
      archive, and two listings after each other give their packs after
      each other. */
  lemma {:induction false} ExternalsSpec(listing: seq<string>, folder: string)
    ensures |Externals(listing, folder)| <= |listing|
    ensures forall z :: z in listing && EndsWith(z, ".zip") ==> External(folder + "/" + z) in Externals(listing, folder)
    ensures forall e :: e in Externals(listing, folder) ==>
      e.External? && exists z :: z in listing && EndsWith(z, ".zip") && e.path == folder + "/" + z
  {
    if |listing| > 0 {
      ExternalsSpec(listing[..|listing| - 1], folder);
      assert listing == listing[..|listing| - 1] + [listing[|listing| - 1]];
    }
  }

  /** Each listed `.zip` name gives as many packs as the listing holds it,
      and no other name gives one. */
  lemma {:induction false} ExternalsCount(listing: seq<string>, folder: string)
    ensures forall z ::
      multiset(Externals(listing, folder))[External(folder + "/" + z)]
      == (if EndsWith(z, ".zip") then multiset(listing)[z] else 0)
  {
    if |listing| > 0 {
      var init := listing[..|listing| - 1];
      var last := listing[|listing| - 1];
      ExternalsCount(init, folder);
      assert listing == init + [last];
      forall z
        ensures multiset(Externals(listing, folder))[External(folder + "/" + z)]
          == (if EndsWith(z, ".zip") then multiset(listing)[z] else 0)
      {
        if External(folder + "/" + last) == External(folder + "/" + z) {
          SamePrefixSameRest(folder + "/", last, z);
        }
      }
    }
  }

  /** Two texts after the same prefix are equal only when they are. */
  lemma SamePrefixSameRest(p: string, a: string, b: string)
    requires p + a == p + b
    ensures a == b
  {
    assert (p + a)[|p|..] == a;
    assert (p + b)[|p|..] == b;
  }

  lemma {:induction false} ExternalsConcat(a: seq<string>, b: seq<string>, folder: string)
    ensures Externals(a + b, folder) == Externals(a, folder) + Externals(b, folder)
    decreases |b|
  {
    if |b| == 0 {
      assert a + b == a;
    } else {
      var b' := b[..|b| - 1];
      assert (a + b)[..|a + b| - 1] == a + b';
      ExternalsConcat(a, b', folder);
    }
  }

  /** `get_available_datapacks` over the listing of
      `<cwd>/assets/imported_datapacks`. */
  method GetAvailableDatapacks(cwd: string, listing: seq<string>) returns (packs: seq<Available>)
    ensures |packs| >= 3 && packs[..3] == Builtins
    ensures packs == Builtins + Externals(listing, cwd + "/assets/imported_datapacks")
  {
    var folder := cwd + "/assets/imported_datapacks";
    packs := Builtins;
    for i := 0 to |listing|
      invariant packs == Builtins + Externals(listing[..i], folder)
    {
      assert listing[..i + 1][..i] == listing[..i];
      if EndsWith(listing[i], ".zip") {
        packs := packs + [External(folder + "/" + listing[i])];
      }
    }
    assert listing[..|listing|] == listing;
  }

  /** The name of an offered external pack is its archive's file name with
      trailing `.`, `z`, `i`, `p` characters stripped. */
  lemma ExternalPackName(cwd: string, z: string)
    requires '/' !in z
    ensures ExternalDatapacks.ExternalName(cwd + "/assets/imported_datapacks" + "/" + z) == RStrip(z, ExternalDatapacks.ZipChars)
  {
    ExternalDatapacks.ExternalNameOfListed(cwd + "/assets/imported_datapacks", z);
  }
}
