/**
 * The downloads directory shared by capture runs and the retention sweep: top-level
 * entries are day folders holding files, or stray plain files. Each file carries its
 * modification time in milliseconds. An absent (or unreadable) root is `None`.
 */
module FileTree {
  import opened Wrappers

  datatype FileEntry = FileEntry(name: string, mtime: int)

  datatype Entry =
    | Folder(name: string, files: seq<FileEntry>)
    | Plain(name: string, mtime: int)

  predicate HasEntry(entries: seq<Entry>, name: string) {
    exists i :: 0 <= i < |entries| && entries[i].name == name
  }

  /** `if (!fs.existsSync(dir)) fs.mkdirSync(dir, { recursive: true })` for a day folder:
      an empty folder is added (and the root with it) only when no entry has that name. */
  function WithFolder(root: Option<seq<Entry>>, name: string): (r: Option<seq<Entry>>)
    ensures r.Some? && HasEntry(r.value, name)
    ensures root.Some? ==> root.value <= r.value
    ensures root.Some? && HasEntry(root.value, name) ==> r == root
    ensures |r.value| <= if root.Some? then |root.value| + 1 else 1
  {
    match root
    case None =>
      assert [Folder(name, [])][0].name == name;
      Some([Folder(name, [])])
    case Some(entries) =>
      if HasEntry(entries, name) then root
      else
        var grown := entries + [Folder(name, [])];
        assert grown[|entries|].name == name;
        Some(grown)
  }

  /** Creating the day folder twice is the same as creating it once, so runs of the same
      day share it. */
  lemma WithFolderIdempotent(root: Option<seq<Entry>>, name: string)
    ensures WithFolder(WithFolder(root, name), name) == WithFolder(root, name)
  {
  }

  /** A folder's files after a file is written into it: a file of the same name is
      replaced, and the new file comes last. */
  function PutFile(files: seq<FileEntry>, f: FileEntry): (r: seq<FileEntry>)
    ensures f in r
    ensures forall g :: g in r <==> g == f || (g in files && g.name != f.name)
    decreases |files|
  {
    if files == [] then [f]
    else
      var rest := PutFile(files[1..], f);
      if files[0].name == f.name then rest else [files[0]] + rest
  }

  /** The tree after a file is written into day folder `folder`: the folder entry of that
      name holds it. Without such a folder the tree is unchanged (the write fails). */
  function Store(root: Option<seq<Entry>>, folder: string, f: FileEntry): (r: Option<seq<Entry>>)
    ensures r.Some? <==> root.Some?
    ensures root.Some? ==> |r.value| == |root.value|
    ensures root.Some? ==> forall i :: 0 <= i < |root.value| && !(root.value[i].Folder? && root.value[i].name == folder) ==>
      r.value[i] == root.value[i]
  {
    match root
    case None => None
    case Some(entries) =>
      Some(seq(|entries|, i requires 0 <= i < |entries| =>
        if entries[i].Folder? && entries[i].name == folder then Folder(folder, PutFile(entries[i].files, f))
        else entries[i]))
  }

  /** Whether day folder `folder` of the tree holds file `f`. */
  predicate Holds(root: Option<seq<Entry>>, folder: string, f: FileEntry) {
    root.Some? && exists i :: (0 <= i < |root.value| && root.value[i].Folder? && root.value[i].name == folder
                               && f in root.value[i].files)
  }

  /** Whether the tree has a day folder named `folder`. */
  predicate HasFolder(root: Option<seq<Entry>>, folder: string) {
    root.Some? && exists i :: 0 <= i < |root.value| && root.value[i].Folder? && root.value[i].name == folder
  }

  /** A written file is in its folder, and so is every other file of that folder whose
      name differs. */
  lemma StoreHolds(root: Option<seq<Entry>>, folder: string, f: FileEntry, g: FileEntry)
    ensures HasFolder(root, folder) ==> Holds(Store(root, folder, f), folder, f)
    ensures Holds(root, folder, g) && g.name != f.name ==> Holds(Store(root, folder, f), folder, g)
    ensures HasFolder(Store(root, folder, f), folder) == HasFolder(root, folder)
  {
    if root.Some? {
      var r := Store(root, folder, f).value;
      if HasFolder(root, folder) {
        var i :| 0 <= i < |root.value| && root.value[i].Folder? && root.value[i].name == folder;
        assert r[i] == Folder(folder, PutFile(root.value[i].files, f));
      }
      if Holds(root, folder, g) && g.name != f.name {
        var i :| 0 <= i < |root.value| && root.value[i].Folder? && root.value[i].name == folder
          && g in root.value[i].files;
        assert r[i] == Folder(folder, PutFile(root.value[i].files, f));
      }
      if HasFolder(Store(root, folder, f), folder) {
        var i :| 0 <= i < |r| && r[i].Folder? && r[i].name == folder;
        assert root.value[i].Folder? && root.value[i].name == folder;
      }
    }
  }

  /** The tree after the files of `writes` are stored into `folder` in order; `None`
      stands for a step that writes nothing. */
  function StoreAll(root: Option<seq<Entry>>, folder: string, writes: seq<Option<FileEntry>>): Option<seq<Entry>>
    decreases |writes|
  {
    if writes == [] then root
    else
      var k := |writes| - 1;
      var before := StoreAll(root, folder, writes[..k]);
      if writes[k].Some? then Store(before, folder, writes[k].value) else before
  }

  /** One more step: its file, if any, stored over what the steps before it left. */
  lemma StoreAllStep(root: Option<seq<Entry>>, folder: string, writes: seq<Option<FileEntry>>, i: nat)
    requires i < |writes|
    ensures StoreAll(root, folder, writes[..i + 1])
      == if writes[i].Some? then Store(StoreAll(root, folder, writes[..i]), folder, writes[i].value)
         else StoreAll(root, folder, writes[..i])
  {
    assert writes[..i + 1][..i] == writes[..i];
  }

  /** Storing files keeps the folder (or its absence) and touches no other top-level entry. */
  lemma {:induction false} StoreAllElsewhere(root: Option<seq<Entry>>, folder: string, writes: seq<Option<FileEntry>>)
    ensures var r := StoreAll(root, folder, writes);
      && HasFolder(r, folder) == HasFolder(root, folder)
      && r.Some? == root.Some?
      && (root.Some? ==>
            && |r.value| == |root.value|
            && forall i :: 0 <= i < |root.value| && root.value[i].name != folder ==> r.value[i] == root.value[i])
    decreases |writes|
  {
    if writes != [] {
      var k := |writes| - 1;
      StoreAllElsewhere(root, folder, writes[..k]);
      if writes[k].Some? {
        var before := StoreAll(root, folder, writes[..k]);
        StoreHolds(before, folder, writes[k].value, writes[k].value);
      }
    }
  }

  /** Step i writes a file and no later step writes one of the same name. */
  predicate LastWrite(writes: seq<Option<FileEntry>>, i: nat)
    requires i < |writes|
  {
    && writes[i].Some?
    && forall j :: i < j < |writes| && writes[j].Some? ==> writes[j].value.name != writes[i].value.name
  }

  lemma LastWritePrefix(writes: seq<Option<FileEntry>>, i: nat)
    requires i < |writes| - 1 && LastWrite(writes, i)
    ensures writes[..|writes| - 1][i] == writes[i] && LastWrite(writes[..|writes| - 1], i)
  {
  }

  /** A stored file is in the folder at the end unless a later step stored one of the same
      name over it. */
  lemma {:induction false} StoreAllHolds(root: Option<seq<Entry>>, folder: string, writes: seq<Option<FileEntry>>, i: nat)
    requires i < |writes| && HasFolder(root, folder) && LastWrite(writes, i)
    ensures Holds(StoreAll(root, folder, writes), folder, writes[i].value)
    decreases |writes|
  {
    var k := |writes| - 1;
    var before := StoreAll(root, folder, writes[..k]);
    var f := writes[i].value;
    if i == k {
      StoreAllElsewhere(root, folder, writes[..k]);
      StoreHolds(before, folder, f, f);
    } else {
      assert Holds(before, folder, f) by {
        LastWritePrefix(writes, i);
        StoreAllHolds(root, folder, writes[..k], i);
      }
      if writes[k].Some? {
        StoreHolds(before, folder, writes[k].value, f);
      }
    }
  }

  class Downloads {
    /** The directory's absolute path. */
    const path: string
    var root: Option<seq<Entry>>

    constructor (path: string, root: Option<seq<Entry>>)
      ensures this.path == path && this.root == root
    {
      this.path := path;
      this.root := root;
    }

    method EnsureFolder(name: string)
      modifies this
      ensures root == WithFolder(old(root), name)
    {
      root := WithFolder(root, name);
    }

    /** A file written at `path/folder/f.name`. */
    method Put(folder: string, f: FileEntry)
      modifies this
      ensures root == Store(old(root), folder, f)
    {
      root := Store(root, folder, f);
    }
  }
}
