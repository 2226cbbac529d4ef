/**
 * The file system as seen by the code generators: a map from path to file contents.
 * Directory creation, permissions and I/O failures other than "no such file" are not modelled.
 */
module FileSystems {

  /** A java.nio.file.Path, as its sequence of name elements. */
  datatype Path = Path(names: seq<string>)

  /** Path.resolve(other) for a relative `other`, given as its name elements. */
  function Resolve(root: Path, relative: seq<string>): (r: Path)
    ensures |r.names| == |root.names| + |relative|
    ensures r.names[..|root.names|] == root.names
    ensures r.names[|root.names|..] == relative
  {
    Path(root.names + relative)
  }

  class FileSystem {
    var files: map<Path, string>

    constructor (initial: map<Path, string>)
      ensures files == initial
    {
      files := initial;
    }

    /** Files.readString(path), with NoSuchFileException mapped to the empty string as the callers do. */
    method ReadOrEmpty(path: Path) returns (contents: string)
      ensures path in files ==> contents == files[path]
      ensures path !in files ==> contents == ""
    {
      if path in files {
        contents := files[path];
      } else {
        contents := "";
      }
    }

    /** new FileWriter(path).write(text): the file's contents become exactly `text`. */
    method Write(path: Path, text: string)
      modifies this
      ensures files == old(files)[path := text]
    {
      files := files[path := text];
    }
  }
}
