/**
 * The random-loot data pack (fast_world_creator/datapacks/random_loot.py):
 * the loot tables of the installed game are extracted, their paths are
 * shuffled with the world's seed, and each path receives the content of the
 * path it was paired with. The seeded generator is a parameter: under
 * `random.seed(seed)`, the draw `random.shuffle` makes for position `i` of a
 * list of length `n` is `rand(seed, n, i)`, reduced below `i + 1`.
 */
module RandomLoot {
  import opened Wrappers
  import opened PyStr
  import opened Datapacks

  /** The folder of the loot tables inside a game jar. */
  const LootTablePrefix: string := "data/minecraft/loot_tables"

  // ----- the shuffle -----

  type Draw = (int, nat, nat) -> nat

  /** The exchange of positions `i` and `j`. */
  function Swap(s: seq<string>, i: nat, j: nat): (r: seq<string>)
    requires i < |s| && j < |s|
    ensures |r| == |s|
  {
    s[i := s[j]][j := s[i]]
  }

  lemma SwapMultiset(s: seq<string>, i: nat, j: nat)
    requires i < |s| && j < |s|
    ensures multiset(s[i := s[j]][j := s[i]]) == multiset(s)
  {
    if i != j {
      var t := s[i := s[j]];
      assert multiset(t) == multiset(s) - multiset{s[i]} + multiset{s[j]};
      assert multiset(t[j := s[i]]) == multiset(t) - multiset{t[j]} + multiset{s[i]};
    }
  }

  /** The swaps `random.shuffle` makes for positions i, i - 1, ..., 1. */
  function ShuffleDown(s: seq<string>, i: nat, seed: int, n: nat, rand: Draw): seq<string>
    requires i < |s|
    decreases i
  {
    if i == 0 then s
    else ShuffleDown(Swap(s, i, rand(seed, n, i) % (i + 1)), i - 1, seed, n, rand)
  }

  /** `random.seed(seed); random.shuffle(s)`. */
  function Shuffled(s: seq<string>, seed: int, rand: Draw): seq<string> {
    if |s| <= 1 then s else ShuffleDown(s, |s| - 1, seed, |s|, rand)
  }

  lemma {:induction false} ShuffleDownPermutes(s: seq<string>, i: nat, seed: int, n: nat, rand: Draw)
    requires i < |s|
    ensures |ShuffleDown(s, i, seed, n, rand)| == |s|
    ensures multiset(ShuffleDown(s, i, seed, n, rand)) == multiset(s)
    decreases i
  {
    if i > 0 {
      var j := rand(seed, n, i) % (i + 1);
      SwapMultiset(s, i, j);
      ShuffleDownPermutes(Swap(s, i, j), i - 1, seed, n, rand);
    }
  }

  /** The shuffled list is a permutation: same length, and every path occurs
      as often as in the original, so none is lost or duplicated. */
  lemma ShuffledPermutes(s: seq<string>, seed: int, rand: Draw)
    ensures |Shuffled(s, seed, rand)| == |s|
    ensures multiset(Shuffled(s, seed, rand)) == multiset(s)
  {
    if |s| > 1 {
      ShuffleDownPermutes(s, |s| - 1, seed, |s|, rand);
    }
  }

  /** `random.shuffle` in place. */
  method Shuffle(a: array<string>, seed: int, rand: Draw)
    modifies a
    ensures a[..] == Shuffled(old(a[..]), seed, rand)
  {
    if a.Length <= 1 {
      return;
    }
    var n := a.Length;
    var i := n - 1;
    while i > 0
      invariant 0 <= i < n
      invariant ShuffleDown(a[..], i, seed, n, rand) == Shuffled(old(a[..]), seed, rand)
    {
      var j := rand(seed, n, i) % (i + 1);
      ghost var before := a[..];
      assert ShuffleDown(before, i, seed, n, rand) == ShuffleDown(Swap(before, i, j), i - 1, seed, n, rand);
      a[i], a[j] := a[j], a[i];
      assert a[..] == Swap(before, i, j);
      i := i - 1;
    }
  }

  // ----- extraction and pairing -----

  /** The names the extraction loop keeps, in jar order. */
  function LootTableNames(names: seq<string>): seq<string> {
    if |names| == 0 then []
    else
      var rest := LootTableNames(names[..|names| - 1]);
      if StartsWith(names[|names| - 1], LootTablePrefix) then rest + [names[|names| - 1]] else rest
  }

  /** Exactly the names under the loot-table folder are kept, in their
      order. */
  lemma {:induction false} LootTableNamesSpec(names: seq<string>)
    ensures forall x :: x in LootTableNames(names) <==> x in names && StartsWith(x, LootTablePrefix)
    ensures |LootTableNames(names)| <= |names|
  {
    if |names| > 0 {
      LootTableNamesSpec(names[..|names| - 1]);
      assert names == names[..|names| - 1] + [names[|names| - 1]];
    }
  }

  /** The entries `_add_loot_tables` appends: each walked path with the
      content of the path it is paired with. */
  function LootEntries(paths: seq<string>, sources: seq<string>, read: string -> string): (r: seq<Entry>)
    requires |paths| == |sources|
    ensures |r| == |paths|
    ensures forall i :: 0 <= i < |paths| ==> r[i] == Entry(paths[i], Text(read(sources[i])))
  {
    seq(|paths|, i requires 0 <= i < |paths| => Entry(paths[i], Text(read(sources[i]))))
  }

  /** The added entries carry the walked paths in order; their contents come
      from a permutation of those same paths, so every loot table is used
      exactly once as content. */
  lemma LootAssignment(paths: seq<string>, seed: int, rand: Draw, read: string -> string)
    ensures |Shuffled(paths, seed, rand)| == |paths|
    ensures var r := LootEntries(paths, Shuffled(paths, seed, rand), read);
      && (forall i :: 0 <= i < |r| ==> r[i].path == paths[i] && r[i].data == Text(read(Shuffled(paths, seed, rand)[i])))
      && multiset(Shuffled(paths, seed, rand)) == multiset(paths)
  {
    ShuffledPermutes(paths, seed, rand);
  }

  class RandomLootDataPack {
    const name: string
    const description: string
    const defaultEnabled: bool
    var files: seq<Entry>

    constructor()
      ensures name == "random_loot" && description == "Loot table randomizer"
      ensures files == [] && !defaultEnabled
    {
      name := "random_loot";
      description := "Loot table randomizer";
      files := [];
      defaultEnabled := false;
    }

    /** `_extract_loot_tables`: None when the version has no jar (missing or
        empty path); otherwise the names that are extracted, in jar order.
        `namelist` gives a jar's entry names. */
    method ExtractLootTables(version: string, installed: map<string, string>, namelist: string -> seq<string>)
      returns (r: Option<seq<string>>)
      ensures r.None? <==> version !in installed || installed[version] == ""
      ensures r.Some? ==> r.value == LootTableNames(namelist(installed[version]))
    {
      if version !in installed || installed[version] == "" {
        return None;
      }
      var names := namelist(installed[version]);
      var kept := [];
      for i := 0 to |names|
        invariant kept == LootTableNames(names[..i])
      {
        assert names[..i + 1][..i] == names[..i];
        if StartsWith(names[i], LootTablePrefix) {
          kept := kept + [names[i]];
        }
      }
      assert names[..|names|] == names;
      r := Some(kept);
    }

    /** `_add_loot_tables`: `paths` is the walked file list and `read` gives a
        file's content. */
    method AddLootTables(paths: seq<string>, seed: int, rand: Draw, read: string -> string)
      modifies this
      ensures |Shuffled(paths, seed, rand)| == |paths|
      ensures files == old(files) + LootEntries(paths, Shuffled(paths, seed, rand), read)
    {
      var contents := new string[|paths|](i requires 0 <= i < |paths| => paths[i]);
      assert contents[..] == paths;
      Shuffle(contents, seed, rand);
      ShuffledPermutes(paths, seed, rand);
      AddPairs(paths, contents[..], read);
    }

    /** The `zip` loop of `_add_loot_tables`: one entry per pair, in order. */
    method AddPairs(paths: seq<string>, contents: seq<string>, read: string -> string)
      requires |paths| == |contents|
      modifies this
      ensures files == old(files) + LootEntries(paths, contents, read)
    {
      for i := 0 to |paths|
        invariant files == old(files) + LootEntries(paths[..i], contents[..i], read)
      {
        files := files + [Entry(paths[i], Text(read(contents[i])))];
        assert LootEntries(paths[..i + 1], contents[..i + 1], read)
          == LootEntries(paths[..i], contents[..i], read) + [Entry(paths[i], Text(read(contents[i])))];
      }
      assert paths[..|paths|] == paths && contents[..|paths|] == contents;
    }

    /** `_create_datapack_files`: the manifest, then, when the version is
        installed, one entry per walked loot table. `walk` gives the order in
        which the walk of the extracted folder lists the extracted files. */
    method CreateFiles(
      version: string, installed: map<string, string>, namelist: string -> seq<string>,
      walk: seq<string> -> seq<string>, seed: int, rand: Draw, read: string -> string)
      returns (ok: bool)
      modifies this
      ensures ok <==> version in installed && installed[version] != ""
      ensures !ok ==> files == old(files) + [Manifest(5, description)]
      ensures ok ==>
        var paths := walk(LootTableNames(namelist(installed[version])));
        |Shuffled(paths, seed, rand)| == |paths|
        && files == old(files) + [Manifest(5, description)] + LootEntries(paths, Shuffled(paths, seed, rand), read)
    {
      files := files + [Manifest(5, description)];
      var extracted := ExtractLootTables(version, installed, namelist);
      if extracted.None? {
        return false;
      }
      AddLootTables(walk(extracted.value), seed, rand, read);
      ok := true;
    }

    /** `store`: writes `datapacks/<name>.zip` with one archive entry per
        list element, or raises (the result is true) when the file cannot be
        written. */
    method Store(folder: PackFolder, writable: bool) returns (raised: bool)
      modifies folder
      ensures raised == !writable
      ensures folder.files == if writable then old(folder.files)[name + ".zip" := Zip(files)] else old(folder.files)
    {
      if writable {
        folder.files := folder.files[name + ".zip" := Zip(files)];
      }
      raised := !writable;
    }

    /** `create_datapack_files` of the base: the files, then `store`, whose
        archive is written even when the version was missing. */
    method CreateDatapackFiles(
      version: string, installed: map<string, string>, namelist: string -> seq<string>,
      walk: seq<string> -> seq<string>, seed: int, rand: Draw, read: string -> string,
      folder: PackFolder, writable: bool)
      returns (raised: bool)
      modifies this, folder
      ensures raised == !writable
      ensures !(version in installed && installed[version] != "") ==>
        files == old(files) + [Manifest(5, description)]
      ensures version in installed && installed[version] != "" ==>
        var paths := walk(LootTableNames(namelist(installed[version])));
        |Shuffled(paths, seed, rand)| == |paths|
        && files == old(files) + [Manifest(5, description)] + LootEntries(paths, Shuffled(paths, seed, rand), read)
      ensures folder.files == if writable then old(folder.files)[name + ".zip" := Zip(files)] else old(folder.files)
    {
      var _ := CreateFiles(version, installed, namelist, walk, seed, rand, read);
      raised := Store(folder, writable);
    }
  }
}
