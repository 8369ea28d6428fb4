/**
 * The building blocks of datapack_creator: the element base (a namespace
 * and a path under `data/`), the `Item` and `Tag` ingredient helpers and
 * the recipe hierarchy. Every `to_data` is modelled as the value handed to
 * `json.dumps`.
 */
module Elements {
  import opened Wrappers
  import opened Json
  import opened PyStr

  /** `ElementBase`'s default namespace. */
  const DefaultNamespace: string := "minecraft"

  /** `ElementBase.get_path`: the namespace's folder. */
  function ElementPath(datapackName: string): (p: string)
    ensures |p| == 5 + |datapackName| && p[..5] == "data/" && p[5..] == datapackName
  {
    "data/" + datapackName
  }

  /** `ElementBase.to_data`: an element without content is the empty text. */
  const ElementData: string := ""

  // ----- Item and Tag -----

  /** An item, with optional NBT text ("" means none). */
  datatype Item = Item(name: string, nbt: string)

  /** A tag of items. */
  datatype Tag = Tag(name: string)

  /** The right operand of `*`: an exact int, a bool (a subclass of int in
      Python) or anything else. */
  datatype Factor = FInt(n: int) | FBool(b: bool) | FOther

  /** `[name] * n`: n copies, none when n <= 0. */
  function Repeat(name: string, n: int): (r: seq<string>)
    ensures |r| == if n <= 0 then 0 else n
    ensures forall i :: 0 <= i < |r| ==> r[i] == name
    decreases n
  {
    if n <= 0 then [] else Repeat(name, n - 1) + [name]
  }

  /** Lists of names put together with `+` keep both parts in order. */
  lemma RepeatConcat(a: string, m: nat, b: string, n: nat)
    ensures var r := Repeat(a, m) + Repeat(b, n);
      |r| == m + n && (forall i :: 0 <= i < m ==> r[i] == a) && (forall i :: m <= i < m + n ==> r[i] == b)
  {
  }

  /** `Item.as_ingredient`. */
  function ItemIngredient(i: Item): (d: Fields)
    ensures Get(d, "item") == Some(JStr(i.name))
    ensures HasKey(d, "nbt") <==> i.nbt != ""
    ensures i.nbt != "" ==> Get(d, "nbt") == Some(JStr(i.nbt))
    ensures Keys(d) == if i.nbt != "" then ["item", "nbt"] else ["item"]
  {
    var d := [("item", JStr(i.name))];
    if i.nbt != "" then
      assert Put(d, "nbt", JStr(i.nbt)) == [("item", JStr(i.name)), ("nbt", JStr(i.nbt))];
      Put(d, "nbt", JStr(i.nbt))
    else d
  }

  /** What `*` returns: a list of names, or the operand itself. */
  datatype Product<T> = Names(names: seq<string>) | Itself(x: T)

  /** `Item * x`: `isinstance(x, int)` holds for bools, so `True` gives one
      copy and `False` none. */
  function ItemMul(i: Item, x: Factor): Product<Item> {
    match x
    case FInt(n) => Names(Repeat(i.name, n))
    case FBool(b) => Names(Repeat(i.name, if b then 1 else 0))
    case FOther => Itself(i)
  }

  /** `Tag * x`: `type(x) == int` is false for bools, so only an exact int
      repeats the name. */
  function TagMul(t: Tag, x: Factor): Product<Tag> {
    match x
    case FInt(n) => Names(Repeat(t.name, n))
    case _ => Itself(t)
  }

  /** An item times a whole number is that many copies of its name; a bool
      counts as 0 or 1; anything else gives the item back. */
  lemma ItemMulSpec(i: Item, x: Factor)
    ensures x.FInt? ==> ItemMul(i, x).Names? && |ItemMul(i, x).names| == (if x.n <= 0 then 0 else x.n)
    ensures x.FBool? ==> ItemMul(i, x) == Names(if x.b then [i.name] else [])
    ensures x.FOther? ==> ItemMul(i, x) == Itself(i)
    ensures ItemMul(i, x).Names? ==> forall k :: 0 <= k < |ItemMul(i, x).names| ==> ItemMul(i, x).names[k] == i.name
  {
    if x.FBool? {
      assert Repeat(i.name, 1) == Repeat(i.name, 0) + [i.name];
    }
  }

  /** A tag times an exact int is that many copies of its name; times a bool
      it is the tag itself, unlike an item. */
  lemma TagMulSpec(t: Tag, x: Factor)
    ensures x.FInt? ==>
      TagMul(t, x).Names? && |TagMul(t, x).names| == (if x.n <= 0 then 0 else x.n)
      && forall k :: 0 <= k < |TagMul(t, x).names| ==> TagMul(t, x).names[k] == t.name
    ensures !x.FInt? ==> TagMul(t, x) == Itself(t)
    ensures x == FBool(true) ==> TagMul(t, x) == Itself(t) && ItemMul(Item(t.name, ""), x) == Names([t.name])
  {
    if x.FBool? {
      assert Repeat(t.name, 1) == Repeat(t.name, 0) + [t.name];
    }
  }

  /** `Tag.as_ingredient`. */
  function TagIngredient(t: Tag): (d: Fields)
    ensures Keys(d) == ["tag"] && Get(d, "tag") == Some(JStr(t.name))
  {
    [("tag", JStr(t.name))]
  }

  // ----- recipes -----

  /** What distinguishes each recipe class. */
  datatype RecipeKind =
    | Base                                                     // `RecipeBase`
    | Shaped(pattern: Json, keys: Json, count: Json)           // `ShapedCraftingRecipe`
    | Shapeless(ingredients: seq<string>, count: Json)         // `ShapelessCraftingRecipe`
    | Cooking(cookingType: Json, ingredient: Json, xp: Json, time: Json)  // `CookingRecipeBase` and its subclasses
    | Stonecutting(ingredient: Json, count: Json)              // `StonecuttingRecipe`

  /** A recipe: `output` is `str(output)` and `group` is "" when None. The
      namespace is `ElementBase`'s default, which no recipe changes. */
  datatype Recipe = Recipe(name: string, output: string, group: string, kind: RecipeKind)

  const Xp: Json := JReal(0.1)

  function ShapedCraftingRecipe(name: string, pattern: Json, keys: Json, output: string, count: Json := JInt(1), group: string := ""): Recipe {
    Recipe(name, output, group, Shaped(pattern, keys, count))
  }

  function ShapelessCraftingRecipe(name: string, ingredients: seq<string>, output: string, count: Json := JInt(1), group: string := ""): Recipe {
    Recipe(name, output, group, Shapeless(ingredients, count))
  }

  function CookingRecipeBase(name: string, ingredient: Json, output: string, xp: Json := Xp, time: Json := JInt(100), group: string := ""): Recipe {
    Recipe(name, output, group, Cooking(JNull, ingredient, xp, time))
  }

  function SmeltingRecipe(name: string, ingredient: Json, output: string, xp: Json := Xp, time: Json := JInt(200), group: string := ""): Recipe {
    Recipe(name, output, group, Cooking(JStr("minecraft:smelting"), ingredient, xp, time))
  }

  function BlastingRecipe(name: string, ingredient: Json, output: string, xp: Json := Xp, time: Json := JInt(100), group: string := ""): Recipe {
    Recipe(name, output, group, Cooking(JStr("minecraft:blasting"), ingredient, xp, time))
  }

  function CampfireCookingRecipe(name: string, ingredient: Json, output: string, xp: Json := Xp, time: Json := JInt(100), group: string := ""): Recipe {
    Recipe(name, output, group, Cooking(JStr("minecraft:campfire_cooking"), ingredient, xp, time))
  }

  function StonecuttingRecipe(name: string, ingredient: Json, output: string, count: Json := JInt(1), group: string := ""): Recipe {
    Recipe(name, output, group, Stonecutting(ingredient, count))
  }

  /** `recipe_type` as each class sets it. */
  function RecipeType(k: RecipeKind): Json {
    match k
    case Base => JNull
    case Shaped(_, _, _) => JStr("minecraft:crafting_shaped")
    case Shapeless(_, _) => JStr("minecraft:crafting_shapeless")
    case Cooking(t, _, _, _) => t
    case Stonecutting(_, _) => JStr("minecraft:stonecutting")
  }

  /** `RecipeBase.get_path`. */
  function RecipePath(r: Recipe): string {
    "data/" + DefaultNamespace + "/recipes/" + r.name + ".json"
  }

  /** `str(recipe)`. */
  function RecipeId(r: Recipe): string {
    DefaultNamespace + ":" + r.name
  }

  /** A recipe lives in the recipes folder of its namespace, and its file
      name is its own name. */
  lemma RecipePathSpec(r: Recipe)
    ensures RecipePath(r) == ElementPath(DefaultNamespace) + "/recipes/" + r.name + ".json"
    ensures RecipeId(r) == DefaultNamespace + ":" + r.name
    ensures '/' !in r.name ==> LastSegment(RecipePath(r), '/') == r.name + ".json"
  {
    var p := ElementPath(DefaultNamespace) + "/recipes";
    assert RecipePath(r) == p + ['/'] + (r.name + ".json");
    if '/' !in r.name {
      assert '/' !in ".json";
      SplitSnoc(p, '/', r.name + ".json");
    }
  }

  /** `[dict(item=i) for i in ingredients]`. */
  function IngredientList(items: seq<string>): (r: seq<Json>)
    ensures |r| == |items|
    ensures forall i :: 0 <= i < |items| ==> r[i] == JObj([("item", JStr(items[i]))])
  {
    seq(|items|, i requires 0 <= i < |items| => JObj([("item", JStr(items[i]))]))
  }

  /** `{item: output, count: count}`. */
  function CountedResult(output: string, count: Json): Json {
    JObj([("item", JStr(output)), ("count", count)])
  }

  /** The dict `RecipeBase.to_data` builds before the subclass hook. */
  function BaseData(r: Recipe): Fields {
    var d := [("type", RecipeType(r.kind)), ("result", JStr(r.output))];
    if r.group != "" then Put(d, "group", JStr(r.group)) else d
  }

  /** `_update_data_dict` of each class. */
  function UpdateData(r: Recipe, d: Fields): Fields {
    match r.kind
    case Base => d
    case Shaped(pattern, keys, count) =>
      Update(d, [("pattern", pattern), ("key", keys), ("result", CountedResult(r.output, count))])
    case Shapeless(ingredients, count) =>
      Update(d, [("ingredients", JArr(IngredientList(ingredients))), ("result", CountedResult(r.output, count))])
    case Cooking(_, ingredient, xp, time) =>
      var d1 := Put(d, "ingredient", ingredient);
      var d2 := if Truthy(xp) then Put(d1, "experience", xp) else d1;
      if Truthy(time) then Put(d2, "time", time) else d2
    case Stonecutting(ingredient, count) =>
      Put(Put(d, "ingredient", ingredient), "count", count)
  }

  /** `to_data`, before `json.dumps`. */
  function RecipeData(r: Recipe): Fields {
    UpdateData(r, BaseData(r))
  }

  /** The `group` entry, present only when a group is set. */
  function GroupEntry(r: Recipe): Fields {
    if r.group != "" then [("group", JStr(r.group))] else []
  }

  /** Every recipe starts with `type` and `result`, then `group` only when
      one is set, as a text. */
  lemma BaseDataSpec(r: Recipe)
    ensures BaseData(r) == [("type", RecipeType(r.kind)), ("result", JStr(r.output))] + GroupEntry(r)
    ensures forall j :: 0 <= j < |BaseData(r)| ==> BaseData(r)[j].0 in ["type", "result", "group"]
  {
    var d := [("type", RecipeType(r.kind)), ("result", JStr(r.output))];
    if r.group != "" {
      PutNew(d, "group", JStr(r.group));
    }
  }

  /** A shaped recipe keeps `result` in its place but makes it the counted
      item, and adds `pattern` and `key` unchanged after the base keys. */
  lemma ShapedDataSpec(r: Recipe)
    requires r.kind.Shaped?
    ensures RecipeData(r) == [("type", JStr("minecraft:crafting_shaped")), ("result", CountedResult(r.output, r.kind.count))]
      + GroupEntry(r) + [("pattern", r.kind.pattern), ("key", r.kind.keys)]
  {
    var d := BaseData(r);
    BaseDataSpec(r);
    var p := ("pattern", r.kind.pattern);
    var k := ("key", r.kind.keys);
    var res := ("result", CountedResult(r.output, r.kind.count));
    var g := [p, k, res];
    assert RecipeData(r) == Update(d, g);
    PutNew(d, p.0, p.1);
    assert Update(d, g) == Update(d + [p], [k, res]);
    PutNew(d + [p], k.0, k.1);
    assert Update(d + [p], [k, res]) == Update(d + [p] + [k], [res]);
    PutExisting(d + [p] + [k], 1, res.0, res.1);
    assert Update(d + [p] + [k], [res]) == Update((d + [p] + [k])[1 := res], []);
  }

  /** A shapeless recipe makes `result` the counted item in its place and
      adds one `{item}` per ingredient, in order. */
  lemma ShapelessDataSpec(r: Recipe)
    requires r.kind.Shapeless?
    ensures RecipeData(r) == [("type", JStr("minecraft:crafting_shapeless")), ("result", CountedResult(r.output, r.kind.count))]
      + GroupEntry(r) + [("ingredients", JArr(IngredientList(r.kind.ingredients)))]
  {
    var d := BaseData(r);
    BaseDataSpec(r);
    var i := ("ingredients", JArr(IngredientList(r.kind.ingredients)));
    var res := ("result", CountedResult(r.output, r.kind.count));
    var g := [i, res];
    assert RecipeData(r) == Update(d, g);
    PutNew(d, i.0, i.1);
    assert Update(d, g) == Update(d + [i], [res]);
    PutExisting(d + [i], 1, res.0, res.1);
    assert Update(d + [i], [res]) == Update((d + [i])[1 := res], []);
  }

  /** A cooking recipe keeps the plain-text `result` and its class's type,
      adds `ingredient` unchanged, then `experience` only for a truthy xp
      and `time` only for a truthy time. */
  lemma CookingDataSpec(r: Recipe)
    requires r.kind.Cooking?
    ensures RecipeData(r) == [("type", r.kind.cookingType), ("result", JStr(r.output))] + GroupEntry(r)
      + [("ingredient", r.kind.ingredient)]
      + (if Truthy(r.kind.xp) then [("experience", r.kind.xp)] else [])
      + (if Truthy(r.kind.time) then [("time", r.kind.time)] else [])
  {
    var d := BaseData(r);
    BaseDataSpec(r);
    var d1 := d + [("ingredient", r.kind.ingredient)];
    PutNew(d, "ingredient", r.kind.ingredient);
    var d2 := d1 + (if Truthy(r.kind.xp) then [("experience", r.kind.xp)] else []);
    if Truthy(r.kind.xp) {
      PutNew(d1, "experience", r.kind.xp);
    }
    if Truthy(r.kind.time) {
      PutNew(d2, "time", r.kind.time);
    }
    var e1 := Put(d, "ingredient", r.kind.ingredient);
    var e2 := if Truthy(r.kind.xp) then Put(e1, "experience", r.kind.xp) else e1;
    assert RecipeData(r) == if Truthy(r.kind.time) then Put(e2, "time", r.kind.time) else e2;
    assert e1 == d1 && e2 == d2;
  }

  /** A stonecutting recipe keeps the plain-text `result` and adds
      `ingredient` then `count`. */
  lemma StonecuttingDataSpec(r: Recipe)
    requires r.kind.Stonecutting?
    ensures RecipeData(r) == [("type", JStr("minecraft:stonecutting")), ("result", JStr(r.output))] + GroupEntry(r)
      + [("ingredient", r.kind.ingredient), ("count", r.kind.count)]
  {
    var d := BaseData(r);
    BaseDataSpec(r);
    PutNew(d, "ingredient", r.kind.ingredient);
    PutNew(d + [("ingredient", r.kind.ingredient)], "count", r.kind.count);
  }

  /** The subclasses' defaults: one item for the crafting and stonecutting
      recipes, 0.1 xp for every cooking recipe, 200 for smelting and 100 for
      the others. */
  lemma RecipeDefaults(name: string, pattern: Json, keys: Json, ingredients: seq<string>, ingredient: Json, output: string)
    ensures ShapedCraftingRecipe(name, pattern, keys, output).kind.count == JInt(1)
    ensures ShapelessCraftingRecipe(name, ingredients, output).kind.count == JInt(1)
    ensures StonecuttingRecipe(name, ingredient, output).kind.count == JInt(1)
    ensures SmeltingRecipe(name, ingredient, output).kind == Cooking(JStr("minecraft:smelting"), ingredient, Xp, JInt(200))
    ensures BlastingRecipe(name, ingredient, output).kind == Cooking(JStr("minecraft:blasting"), ingredient, Xp, JInt(100))
    ensures CampfireCookingRecipe(name, ingredient, output).kind == Cooking(JStr("minecraft:campfire_cooking"), ingredient, Xp, JInt(100))
    ensures CookingRecipeBase(name, ingredient, output).kind == Cooking(JNull, ingredient, Xp, JInt(100))
  {
  }
}
