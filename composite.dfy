/** A file-system tree: files are leaves, directories hold an ordered list of children. */
module Composite {
  import opened Wrappers

  /** A file-system component. The children of a directory are kept in insertion order. */
  datatype FileSystem =
    | File(name: string)
    | Directory(name: string, content: seq<FileSystem>)

  /** `add`: a directory appends the child after its existing children; a file refuses. */
  function Add(fs: FileSystem, child: FileSystem): (r: Result<FileSystem>)
    ensures fs.File? <==> r.Err?
    ensures r.Err? ==> r.error == "Cannot add to a file"
    ensures r.Ok? ==> r.value.Directory? && r.value.name == fs.name
    ensures r.Ok? ==> |r.value.content| == |fs.content| + 1
    ensures r.Ok? ==> r.value.content[..|fs.content|] == fs.content
    ensures r.Ok? ==> r.value.content[|fs.content|] == child
  {
    match fs
    case File(_) => Err("Cannot add to a file")
    case Directory(name, content) => Ok(Directory(name, content + [child]))
  }

  /** `ls`: the component's own line, then, for a directory, its children's listings in order.
      Every listing starts with the line of the component it was asked of. */
  function Ls(fs: FileSystem): (lines: seq<string>)
    ensures |lines| > 0
    ensures lines[0] == (if fs.File? then "File: " else "Directory: ") + fs.name
    decreases fs
  {
    match fs
    case File(name) => ["File: " + name]
    case Directory(name, content) => ["Directory: " + name] + LsAll(content)
  }

  /** The listings of a sequence of components, one after another: at least one line per
      component, and the first component's own line first. */
  function LsAll(items: seq<FileSystem>): (lines: seq<string>)
    ensures |lines| >= |items|
    ensures items != [] ==> lines[0] == Ls(items[0])[0]
    decreases items
  {
    if items == [] then [] else Ls(items[0]) + LsAll(items[1..])
  }

  /** The number of components in a tree, the root included. */
  function Size(fs: FileSystem): nat
    decreases fs
  {
    match fs
    case File(_) => 1
    case Directory(_, content) => 1 + SizeAll(content)
  }

  /** The number of components in a sequence of trees. */
  function SizeAll(items: seq<FileSystem>): nat
    decreases items
  {
    if items == [] then 0 else Size(items[0]) + SizeAll(items[1..])
  }

  /** A listing holds exactly one line per component of the tree. */
  lemma {:induction false} LsLineCount(fs: FileSystem)
    ensures |Ls(fs)| == Size(fs)
    decreases fs
  {
    match fs
    case File(_) =>
    case Directory(_, content) => LsAllLineCount(content);
  }

  /** The listing of a sequence of trees holds one line per component. */
  lemma {:induction false} LsAllLineCount(items: seq<FileSystem>)
    ensures |LsAll(items)| == SizeAll(items)
    decreases items
  {
    if items != [] {
      LsLineCount(items[0]);
      LsAllLineCount(items[1..]);
    }
  }

  /** Listing a sequence with one more tree at the end lists that tree last. */
  lemma {:induction false} LsAllAppend(items: seq<FileSystem>, child: FileSystem)
    ensures LsAll(items + [child]) == LsAll(items) + Ls(child)
    decreases |items|
  {
    if items == [] {
      assert [child][1..] == [];
    } else {
      assert (items + [child])[1..] == items[1..] + [child];
      LsAllAppend(items[1..], child);
    }
  }

  /** Adding to a directory leaves its listing unchanged and appends the child's listing. */
  lemma LsAfterAdd(dir: FileSystem, child: FileSystem)
    requires dir.Directory?
    ensures Add(dir, child).Ok?
    ensures Ls(Add(dir, child).value) == Ls(dir) + Ls(child)
  {
    LsAllAppend(dir.content, child);
  }

  /** The demonstration: root holds main.ts and src, src holds app.ts, added in that order. */
  lemma DemoListing()
    ensures
      var src := Add(Directory("src", []), File("app.ts")).value;
      var root := Add(Add(Directory("root", []), File("main.ts")).value, src).value;
      Ls(root) == ["Directory: root", "File: main.ts", "Directory: src", "File: app.ts"]
  {
    var src0 := Directory("src", []);
    var src := Add(src0, File("app.ts")).value;
    LsAfterAdd(src0, File("app.ts"));
    var root0 := Directory("root", []);
    var root1 := Add(root0, File("main.ts")).value;
    LsAfterAdd(root0, File("main.ts"));
    LsAfterAdd(root1, src);
    assert "Directory: " + "src" == "Directory: src" && "Directory: " + "root" == "Directory: root";
    assert "File: " + "app.ts" == "File: app.ts" && "File: " + "main.ts" == "File: main.ts";
  }
}
