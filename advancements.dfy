/**
 * The `Advancement` record, as both fast_world_creator/minecraft and
 * datapack_creator/elements/advancements define it: the two classes have the
 * same fields, defaults, setters and output, and differ only in whether the
 * namespace is called `datapack` or `datapack_name`. One class models both.
 */
module Advancements {
  import opened Wrappers
  import opened Json
  import opened PyStr
  import Elements

  /** `AdvancementGroup`: a named group; `str()` is the name. */
  datatype AdvancementGroup = AdvancementGroup(group: string)

  /** `AdvancementFrame`. */
  const Task: string := "task"
  const Goal: string := "goal"
  const Challenge: string := "challenge"

  /** The group of `AG_STORY`, the default of the `group` argument. */
  const StoryGroup: string := "story"

  /** `parent.group` with no parent. */
  datatype AdvError = AttributeError

  /** The constructor's name and group: the name is the text after the last
      `/`; the group is what comes before it, or else the parent's group, or
      else the `group` argument, and reading the parent's group when there
      is no parent raises. */
  function SplitName(name: string, parentGroup: Option<string>, group: string): Result<(string, string), AdvError> {
    var base := BeforeLast(name, '/');
    if base != "" then Ok((LastSegment(name, '/'), base))
    else if parentGroup.None? then Err(AttributeError)
    else if parentGroup.value != "" then Ok((LastSegment(name, '/'), parentGroup.value))
    else Ok((LastSegment(name, '/'), group))
  }

  /** The name never holds a `/`; with a `/` and a non-empty folder part the
      group and the name make up the given name; without one, the group is
      the parent's (or the argument, for a parent without one), and only a
      missing parent fails. */
  lemma SplitNameSpec(name: string, parentGroup: Option<string>, group: string)
    ensures SplitName(name, parentGroup, group).Err? <==> BeforeLast(name, '/') == "" && parentGroup.None?
    ensures SplitName(name, parentGroup, group).Ok? ==>
      var (n, g) := SplitName(name, parentGroup, group).value;
      && '/' !in n
      && (BeforeLast(name, '/') != "" ==> g + "/" + n == name)
      && ('/' !in name && parentGroup.Some? ==> n == name && g == if parentGroup.value != "" then parentGroup.value else group)
  {
    LastSegmentShape(name, '/');
  }

  /** The id `<namespace>:<group>/<name>` (`str(adv)`). */
  function AdvancementId(datapack: string, group: string, name: string): (s: string)
    ensures ':' in s
  {
    assert (datapack + ":" + group + "/" + name)[|datapack|] == ':';
    datapack + ":" + group + "/" + name
  }

  /** `get_path`. */
  function AdvancementPath(datapack: string, group: string, name: string): string {
    "data/" + datapack + "/advancements/" + group + "/" + name + ".json"
  }

  /** The id and the path both end in the name, so the name can be read back
      from either; the path is the namespace's folder of `ElementBase`
      followed by `advancements/<group>/<name>.json`. */
  lemma IdAndPathSpec(datapack: string, group: string, name: string)
    requires '/' !in name
    ensures LastSegment(AdvancementId(datapack, group, name), '/') == name
    ensures BeforeLast(AdvancementId(datapack, group, name), '/') == datapack + ":" + group
    ensures LastSegment(AdvancementPath(datapack, group, name), '/') == name + ".json"
    ensures AdvancementPath(datapack, group, name)
      == Elements.ElementPath(datapack) + "/advancements/" + group + "/" + name + ".json"
  {
    var id := AdvancementId(datapack, group, name);
    assert id == (datapack + ":" + group) + ['/'] + name;
    SplitSnoc(datapack + ":" + group, '/', name);
    var dir := "data/" + datapack + "/advancements/" + group;
    assert AdvancementPath(datapack, group, name) == dir + ['/'] + (name + ".json");
    assert '/' !in name + ".json";
    SplitSnoc(dir, '/', name + ".json");
  }

  /** `_get_display`. */
  function DisplayTag(icon: Fields, title: string, frame: string, description: string, hidden: bool, background: Json): Fields {
    var display := [("icon", JObj(icon)), ("title", JStr(title)), ("frame", JStr(frame)),
                    ("description", JStr(description)), ("hidden", JBool(hidden))];
    if Truthy(background) then Put(display, "background", background) else display
  }

  /** The display always holds icon, title, frame, description and hidden,
      in that order, and then the background only when it is truthy. */
  lemma DisplayTagSpec(icon: Fields, title: string, frame: string, description: string, hidden: bool, background: Json)
    ensures DisplayTag(icon, title, frame, description, hidden, background)
      == [("icon", JObj(icon)), ("title", JStr(title)), ("frame", JStr(frame)),
          ("description", JStr(description)), ("hidden", JBool(hidden))]
         + (if Truthy(background) then [("background", background)] else [])
  {
    var display := [("icon", JObj(icon)), ("title", JStr(title)), ("frame", JStr(frame)),
                    ("description", JStr(description)), ("hidden", JBool(hidden))];
    PutNew(display, "background", background);
  }

  /** `to_data`, before `json.dumps`: `parent` is the parent's id text. */
  function RootTag(display: Fields, parent: Option<string>, criteria: Json, requirements: Json, rewards: Json): Fields {
    var r0 := Put([], "display", JObj(display));
    var r1 := if parent.Some? then Put(r0, "parent", JStr(parent.value)) else r0;
    var r2 := Put(r1, "criteria", criteria);
    var r3 := if Truthy(requirements) then Put(r2, "requirements", requirements) else r2;
    if Truthy(rewards) then Put(r3, "rewards", rewards) else r3
  }

  /** `display` and `criteria` are always there; `parent`, `requirements`
      and `rewards` only when set, each in its place. */
  lemma RootTagSpec(display: Fields, parent: Option<string>, criteria: Json, requirements: Json, rewards: Json)
    ensures RootTag(display, parent, criteria, requirements, rewards)
      == [("display", JObj(display))]
         + (if parent.Some? then [("parent", JStr(parent.value))] else [])
         + [("criteria", criteria)]
         + (if Truthy(requirements) then [("requirements", requirements)] else [])
         + (if Truthy(rewards) then [("rewards", rewards)] else [])
  {
    var r0 := [("display", JObj(display))];
    var r1 := r0 + (if parent.Some? then [("parent", JStr(parent.value))] else []);
    var r2 := r1 + [("criteria", criteria)];
    var r3 := r2 + (if Truthy(requirements) then [("requirements", requirements)] else []);
    PutNew([], "display", JObj(display));
    if parent.Some? {
      PutNew(r0, "parent", JStr(parent.value));
    }
    PutNew(r1, "criteria", criteria);
    if Truthy(requirements) {
      PutNew(r2, "requirements", requirements);
    }
    if Truthy(rewards) {
      PutNew(r3, "rewards", rewards);
    }
    var e0 := Put([], "display", JObj(display));
    var e1 := if parent.Some? then Put(e0, "parent", JStr(parent.value)) else e0;
    var e2 := Put(e1, "criteria", criteria);
    var e3 := if Truthy(requirements) then Put(e2, "requirements", requirements) else e2;
    assert e0 == r0 && e1 == r1 && e2 == r2 && e3 == r3;
  }

  /** The parent as the constructor stores it (the object itself, whose id
      is read when the data is built) or as `set_parent` stores it (its id
      text). */
  datatype Parent = NoParent | Linked(adv: Advancement) | Named(id: string)

  /** Every field of an advancement, for stating what a call changes. */
  datatype AdvancementState = AdvancementState(
    name: string, group: string, datapack: string, frame: string, icon: Fields, title: string,
    background: Json, description: string, hidden: bool, parent: Parent,
    criteria: Json, requirements: Json, rewards: Json)

  class Advancement {
    var name: string
    var group: string
    var datapack: string
    var frame: string
    var icon: Fields
    var title: string
    var background: Json
    var description: string
    var hidden: bool
    var parent: Parent
    var criteria: Json
    var requirements: Json
    var rewards: Json

    /** The name is a single path segment. */
    predicate Valid()
      reads this
    {
      '/' !in name
    }

    function State(): AdvancementState
      reads this
    {
      AdvancementState(name, group, datapack, frame, icon, title, background, description, hidden,
                       parent, criteria, requirements, rewards)
    }

    constructor(
      name: string := "empty", group: string := StoryGroup, datapack: string := "minecraft",
      frame: string := Task, iconItem: string := "minecraft:grass_block", iconNbt: string := "",
      title: string := "Placeholder", background: Json := JNull, description: string := "Placeholder",
      hidden: bool := false, parent: Option<Advancement> := None,
      criteria: Json := JNull, requirements: Json := JNull, rewards: Json := JNull)
      requires SplitName(name, if parent.Some? then Some(parent.value.group) else None, group).Ok?
      ensures Valid()
      ensures var (n, g) := SplitName(name, if parent.Some? then Some(parent.value.group) else None, group).value;
        State() == AdvancementState(
          n, g, datapack, frame, Elements.ItemIngredient(Elements.Item(iconItem, iconNbt)), title, background,
          description, hidden, if parent.Some? then Linked(parent.value) else NoParent,
          criteria, requirements, rewards)
    {
      var split := SplitName(name, if parent.Some? then Some(parent.value.group) else None, group).value;
      SplitNameSpec(name, if parent.Some? then Some(parent.value.group) else None, group);
      this.name := split.0;
      this.group := split.1;
      this.datapack := datapack;
      this.frame := frame;
      // The icon dict is built like an item ingredient: `item`, then `nbt` when given.
      this.icon := Elements.ItemIngredient(Elements.Item(iconItem, iconNbt));
      this.title := title;
      this.background := background;
      this.description := description;
      this.hidden := hidden;
      this.parent := if parent.Some? then Linked(parent.value) else NoParent;
      this.criteria := criteria;
      this.requirements := requirements;
      this.rewards := rewards;
    }

    /** `str(adv)`. */
    function Id(): string
      reads this
    {
      AdvancementId(datapack, group, name)
    }

    /** `get_path`. */
    function Path(): string
      reads this
    {
      AdvancementPath(datapack, group, name)
    }

    /** The objects `to_data` reads: this one and a linked parent. */
    function Footprint(): set<object>
      reads this
    {
      if parent.Linked? then {this, parent.adv} else {this}
    }

    /** `str(self.parent)` when the parent is truthy. */
    function ParentText(): Option<string>
      reads Footprint()
    {
      match parent
      case NoParent => None
      case Linked(a) => Some(a.Id())
      case Named(s) => if s != "" then Some(s) else None
    }

    /** `to_data`, before `json.dumps`. */
    function ToData(): Fields
      reads Footprint()
    {
      RootTag(DisplayTag(icon, title, frame, description, hidden, background), ParentText(),
              criteria, requirements, rewards)
    }

    method SetFrame(frame: string) returns (r: Advancement)
      modifies this
      ensures r == this && State() == old(State()).(frame := frame)
    {
      this.frame := frame;
      r := this;
    }

    method SetIcon(icon: Fields) returns (r: Advancement)
      modifies this
      ensures r == this && State() == old(State()).(icon := icon)
    {
      this.icon := icon;
      r := this;
    }

    method SetIconItem(item: string) returns (r: Advancement)
      modifies this
      ensures r == this && State() == old(State()).(icon := Put(old(icon), "item", JStr(item)))
    {
      icon := Put(icon, "item", JStr(item));
      r := this;
    }

    method SetIconNbt(nbt: string) returns (r: Advancement)
      modifies this
      ensures r == this && State() == old(State()).(icon := Put(old(icon), "nbt", JStr(nbt)))
    {
      icon := Put(icon, "nbt", JStr(nbt));
      r := this;
    }

    method SetTitle(title: string) returns (r: Advancement)
      modifies this
      ensures r == this && State() == old(State()).(title := title)
    {
      this.title := title;
      r := this;
    }

    method SetBackground(background: Json) returns (r: Advancement)
      modifies this
      ensures r == this && State() == old(State()).(background := background)
    {
      this.background := background;
      r := this;
    }

    method SetDescription(desc: string) returns (r: Advancement)
      modifies this
      ensures r == this && State() == old(State()).(description := desc)
    {
      description := desc;
      r := this;
    }

    method SetIsHidden(hidden: bool) returns (r: Advancement)
      modifies this
      ensures r == this && State() == old(State()).(hidden := hidden)
    {
      this.hidden := hidden;
      r := this;
    }

    /** Stores the parent's id, which is never empty, so the `"root"`
      fallback is never taken, and takes its group. */
    method SetParent(p: Advancement) returns (r: Advancement)
      modifies this
      ensures r == this
      ensures State() == old(State()).(parent := Named(old(p.Id())), group := old(p.group))
      ensures old(p.Id()) != ""
    {
      var id := p.Id();
      var text := if id != "" then id else "root";
      var g := p.group;
      parent := Named(text);
      group := g;
      r := this;
    }

    method SetCriteria(criteria: Json) returns (r: Advancement)
      modifies this
      ensures r == this && State() == old(State()).(criteria := criteria)
    {
      this.criteria := criteria;
      r := this;
    }

    method SetRequirements(requirements: Json) returns (r: Advancement)
      modifies this
      ensures r == this && State() == old(State()).(requirements := requirements)
    {
      this.requirements := requirements;
      r := this;
    }

    method SetRewards(rewards: Json) returns (r: Advancement)
      modifies this
      ensures r == this && State() == old(State()).(rewards := rewards)
    {
      this.rewards := rewards;
      r := this;
    }
  }

  /** The data of any advancement: the display, the parent's id when it has
      one (the linked parent's id as it is when the data is built), the
      criteria even when None, then requirements and rewards when set. */
  lemma ToDataSpec(a: Advancement)
    ensures a.ToData()
      == [("display", JObj(DisplayTag(a.icon, a.title, a.frame, a.description, a.hidden, a.background)))]
         + (if a.parent.Linked? then [("parent", JStr(a.parent.adv.Id()))]
            else if a.parent.Named? && a.parent.id != "" then [("parent", JStr(a.parent.id))] else [])
         + [("criteria", a.criteria)]
         + (if Truthy(a.requirements) then [("requirements", a.requirements)] else [])
         + (if Truthy(a.rewards) then [("rewards", a.rewards)] else [])
  {
    RootTagSpec(DisplayTag(a.icon, a.title, a.frame, a.description, a.hidden, a.background), a.ParentText(),
                a.criteria, a.requirements, a.rewards);
  }

  /** A linked parent always appears in the data, since an id is never
      empty. */
  lemma LinkedParentAppears(a: Advancement)
    requires a.parent.Linked?
    ensures |a.ToData()| >= 2 && a.ToData()[1] == ("parent", JStr(a.parent.adv.Id()))
  {
    ToDataSpec(a);
  }
}
