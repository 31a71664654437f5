/** The part of the local filesystem the downloaders touch, as a map from
    absolute paths to file sizes.  Both generations of the downloader read
    and change it through the `Disk` class. */
module FileSystem {
  import opened Common

  /** An absolute path as its components; `[]` is the root "/". */
  type Path = seq<string>

  /** `path.parent`; the root is its own parent. */
  function Parent(p: Path): (r: Path)
    ensures |p| > 0 ==> r == p[..|p| - 1]
    ensures |p| == 0 ==> r == p
  {
    if |p| == 0 then p else p[..|p| - 1]
  }

  /** `path.name` */
  function FileName(p: Path): string {
    if |p| == 0 then "" else p[|p| - 1]
  }

  /** The name of `file.with_suffix(file.suffix + '.part')`. */
  function PartialName(name: string): (r: string)
    ensures r == name + ".part"
  {
    FileStem(name) + (FileSuffix(name) + ".part")
  }

  /** `folder / name` and the ".part" file that goes with it. */
  function PartialFile(folder: Path, name: string): Path {
    folder + [PartialName(name)]
  }

  /** The partial file is never the complete file it stands for. */
  lemma PartialFileDistinct(folder: Path, name: string)
    ensures PartialFile(folder, name) != folder + [name]
  {
    assert PartialFile(folder, name)[|folder|] == name + ".part";
    assert |name + ".part"| != |name|;
  }

  class Disk {
    /** Every regular file on the disk, with its size in bytes. */
    var files: map<Path, nat>

    constructor (files: map<Path, nat>)
      ensures this.files == files
    {
      this.files := files;
    }

    /** `path.exists()` */
    predicate Exists(p: Path)
      reads this
    {
      p in files
    }

    /** `path.rename(target)`: fails when `src` is missing, replaces `dst`. */
    method Rename(src: Path, dst: Path) returns (ok: bool)
      modifies this
      ensures ok == (src in old(files))
      ensures ok ==> files == (old(files) - {src})[dst := old(files)[src]]
      ensures !ok ==> files == old(files)
    {
      ok := src in files;
      if ok {
        files := (files - {src})[dst := files[src]];
      }
    }

    /** Writing a file leaves it with `size` bytes, creating it if needed. */
    method Write(p: Path, size: nat)
      modifies this
      ensures files == old(files)[p := size]
    {
      files := files[p := size];
    }

    /** `os.remove(path)`: fails when `p` is missing. */
    method Remove(p: Path) returns (ok: bool)
      modifies this
      ensures ok == (p in old(files))
      ensures files == old(files) - {p}
    {
      ok := p in files;
      files := files - {p};
    }
  }
}
