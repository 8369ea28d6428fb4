/**
 * A data pack found as a ZIP archive in the imported-packs folder
 * (fast_world_creator/datapacks/external_datapack.py). Its name comes from
 * the archive's file name; storing it copies the archive into the world's
 * `datapacks` folder under the same file name.
 */
module ExternalDatapacks {
  import opened PyStr
  import opened Datapacks

  /** The argument of `rstrip(".zip")`, read as the set of characters it
      strips. */
  const ZipChars: set<char> := {'.', 'z', 'i', 'p'}

  /** `path.split("/")[-1].rstrip(".zip")`. */
  function ExternalName(path: string): string {
    RStrip(LastSegment(path, '/'), ZipChars)
  }

  /** The name holds no `/`, is a prefix of the last path segment, and does
      not end in one of the stripped characters; everything cut off the
      segment is one of them. */
  lemma ExternalNameSpec(path: string)
    ensures var seg := LastSegment(path, '/'); var n := ExternalName(path);
      && '/' !in n
      && StartsWith(seg, n)
      && (n == [] || n[|n| - 1] !in ZipChars)
      && (forall i :: |n| <= i < |seg| ==> seg[i] in ZipChars)
  {
    LastSegmentShape(path, '/');
    var seg := LastSegment(path, '/');
    var n := ExternalName(path);
    assert n == seg[..|n|];
    assert forall c :: c in n ==> c in seg;
  }

  /** The strip is by characters, not by suffix: `hip.zip` names the pack
      `h`. */
  lemma ExternalNameStripsCharacters()
    ensures ExternalName("d/hip.zip") == "h"
  {
    assert "d/hip.zip" == "d" + ['/'] + "hip.zip";
    SplitSnoc("d", '/', "hip.zip");
    assert "hip.zip" == "h" + "ip.zip";
    RStripSuffix("h", "ip.zip", ZipChars);
  }

  /** The archive found at `folder/z` for a file name `z`: its name depends
      on `z` alone. */
  lemma ExternalNameOfListed(folder: string, z: string)
    requires '/' !in z
    ensures ExternalName(folder + "/" + z) == RStrip(z, ZipChars)
  {
    assert folder + "/" + z == folder + ['/'] + z;
    SplitSnoc(folder, '/', z);
  }

  /** `ExternalDatapack`: on top of the minimal base (empty entry list,
      enabled by default) it keeps the path and the fixed description. */
  class ExternalDatapack {
    const name: string
    const path: string
    const description: string
    const defaultEnabled: bool
    var files: seq<Entry>

    constructor(path: string)
      ensures name == ExternalName(path) && this.path == path
      ensures description == "Found in assets/datapacks"
      ensures defaultEnabled && files == []
    {
      name := ExternalName(path);
      this.path := path;
      description := "Found in assets/datapacks";
      defaultEnabled := true;
      files := [];
    }

    /** `store`: `shutil.copy` of the archive into the `datapacks` folder,
        under the archive's own file name; `readable` says whether the copy
        succeeds, and a failure raises (the result is true). */
    method Store(folder: PackFolder, readable: bool) returns (raised: bool)
      modifies folder
      ensures raised == !readable
      ensures folder.files == if readable then old(folder.files)[LastSegment(path, '/') := Copy(path)] else old(folder.files)
    {
      if readable {
        folder.files := folder.files[LastSegment(path, '/') := Copy(path)];
      }
      raised := !readable;
    }

    /** The inherited `create_datapack_files`: the base hook adds nothing,
        then `store` copies the archive. */
    method CreateDatapackFiles(folder: PackFolder, readable: bool) returns (raised: bool)
      modifies folder
      ensures files == old(files)
      ensures raised == !readable
      ensures folder.files == if readable then old(folder.files)[LastSegment(path, '/') := Copy(path)] else old(folder.files)
    {
      raised := Store(folder, readable);
    }
  }
}
