/**
 * The retention sweep (server/src/services/CleanupService.ts): every file in a day folder
 * older than the retention time is deleted, a day folder left empty is removed, plain
 * files at the top level are never touched, and a missing downloads directory is a no-op.
 * `start` runs a sweep at once and schedules one every minute; `stop` cancels the
 * schedule.
 *
 * Filesystem errors are an input: the folders whose `stat` or listing throws, the files
 * whose `stat` or `unlink` throws, and the folders whose final listing or `rmdir` throws.
 * Each such error is caught and skips only that file or folder.
 */
module Retention {
  import opened Seqs
  import opened Wrappers
  import opened FileTree

  const MinuteMs := 60 * 1000
  const DefaultRetentionMinutes := 10
  const CheckIntervalMs := 60 * 1000

  /** The errors a sweep runs into: per folder name, per (folder, file) pair. */
  datatype Faults = Faults(unreadable: set<string>, stuck: set<(string, string)>, unremovable: set<string>)

  /** `now - mtimeMs > retentionTimeMs`: strictly older than the retention time. */
  predicate Expired(mtime: int, now: int, retentionMs: int) {
    now - mtime > retentionMs
  }

  /** Whether a file of `folder` survives the sweep: it is young enough, or deleting it
      failed. */
  predicate Survives(folder: string, f: FileEntry, now: int, retentionMs: int, faults: Faults) {
    !Expired(f.mtime, now, retentionMs) || (folder, f.name) in faults.stuck
  }

  /** The files of a folder that the sweep leaves, in their order. */
  function KeptFiles(folder: string, files: seq<FileEntry>, now: int, retentionMs: int, faults: Faults): seq<FileEntry>
  {
    if files == [] then []
    else
      var last := files[|files| - 1];
      KeptFiles(folder, files[..|files| - 1], now, retentionMs, faults)
        + (if Survives(folder, last, now, retentionMs, faults) then [last] else [])
  }

  /** What the sweep leaves of one top-level entry; `None` when it is removed. */
  function SweepEntry(e: Entry, now: int, retentionMs: int, faults: Faults): Option<Entry> {
    match e
    case Plain(_, _) => Some(e)
    case Folder(name, files) =>
      if name in faults.unreadable then Some(e)
      else
        var kept := KeptFiles(name, files, now, retentionMs, faults);
        if kept == [] && name !in faults.unremovable then None
        else Some(Folder(name, kept))
  }

  /** What the sweep leaves of a listing, in its order. */
  function SweepEntries(entries: seq<Entry>, now: int, retentionMs: int, faults: Faults): seq<Entry>
  {
    if entries == [] then []
    else
      SweepEntries(entries[..|entries| - 1], now, retentionMs, faults)
        + Present(SweepEntry(entries[|entries| - 1], now, retentionMs, faults))
  }

  function Present(e: Option<Entry>): seq<Entry> {
    if e.Some? then [e.value] else []
  }

  /** The downloads directory after a sweep; a missing one stays missing. */
  function Sweep(root: Option<seq<Entry>>, now: int, retentionMs: int, faults: Faults): (r: Option<seq<Entry>>)
    ensures r.Some? <==> root.Some?
  {
    match root
    case None => None
    case Some(entries) => Some(SweepEntries(entries, now, retentionMs, faults))
  }

  /** The number of files held by an entry. */
  function FilesIn(e: Entry): nat {
    match e
    case Folder(_, files) => |files|
    case Plain(_, _) => 0
  }

  /** The number of files in the day folders of a listing. */
  function FileCount(entries: seq<Entry>): nat {
    if entries == [] then 0 else FileCount(entries[..|entries| - 1]) + FilesIn(entries[|entries| - 1])
  }

  /** The number of day folders in a listing. */
  function FolderCount(entries: seq<Entry>): nat {
    if entries == [] then 0
    else FolderCount(entries[..|entries| - 1]) + (if entries[|entries| - 1].Folder? then 1 else 0)
  }

  /** A file is left exactly when it was there and it survives. */
  lemma {:induction false} KeptFilesSpec(folder: string, files: seq<FileEntry>, now: int, retentionMs: int, faults: Faults)
    ensures var kept := KeptFiles(folder, files, now, retentionMs, faults);
      && |kept| <= |files|
      && forall f :: f in kept <==> f in files && Survives(folder, f, now, retentionMs, faults)
    decreases |files|
  {
    if files != [] {
      var init := files[..|files| - 1];
      KeptFilesSpec(folder, init, now, retentionMs, faults);
      assert files == init + [files[|files| - 1]];
    }
  }

  /** Sweeping what a sweep left changes nothing more. */
  lemma {:induction false} KeptFilesIdempotent(folder: string, files: seq<FileEntry>, now: int, retentionMs: int, faults: Faults)
    ensures var kept := KeptFiles(folder, files, now, retentionMs, faults);
      KeptFiles(folder, kept, now, retentionMs, faults) == kept
    decreases |files|
  {
    if files != [] {
      var init := files[..|files| - 1];
      var last := files[|files| - 1];
      var k0 := KeptFiles(folder, init, now, retentionMs, faults);
      KeptFilesIdempotent(folder, init, now, retentionMs, faults);
      if Survives(folder, last, now, retentionMs, faults) {
        assert (k0 + [last])[..|k0|] == k0 && (k0 + [last])[|k0|] == last;
      } else {
        assert k0 + [] == k0;
      }
    }
  }

  /** One entry: plain files and unreadable folders are left as they are; any other folder
      keeps its surviving files and is removed exactly when none survive and its removal
      does not fail. */
  lemma SweepEntryCases(e: Entry, now: int, retentionMs: int, faults: Faults)
    ensures e.Plain? ==> SweepEntry(e, now, retentionMs, faults) == Some(e)
    ensures e.Folder? && e.name in faults.unreadable ==> SweepEntry(e, now, retentionMs, faults) == Some(e)
    ensures e.Folder? && e.name !in faults.unreadable ==>
      (SweepEntry(e, now, retentionMs, faults).None? <==>
         e.name !in faults.unremovable && forall f :: f in e.files ==> !Survives(e.name, f, now, retentionMs, faults))
    ensures SweepEntry(e, now, retentionMs, faults).Some? ==>
      var s := SweepEntry(e, now, retentionMs, faults).value;
      s.name == e.name && s.Folder? == e.Folder?
      && (s.Folder? ==> forall f :: f in s.files <==>
            (f in e.files && (e.name in faults.unreadable || Survives(e.name, f, now, retentionMs, faults))))
  {
    if e.Folder? {
      KeptFilesSpec(e.name, e.files, now, retentionMs, faults);
      var kept := KeptFiles(e.name, e.files, now, retentionMs, faults);
      if kept != [] {
        assert kept[0] in kept;
      }
    }
  }

  /** Every entry left comes from an entry of the listing, and every entry the per-entry
      rule keeps is left. */
  lemma {:induction false} SweepEntriesSpec(entries: seq<Entry>, now: int, retentionMs: int, faults: Faults)
    ensures var left := SweepEntries(entries, now, retentionMs, faults);
      && |left| <= |entries|
      && (forall s :: s in left ==> exists e :: e in entries && SweepEntry(e, now, retentionMs, faults) == Some(s))
      && (forall e :: e in entries && SweepEntry(e, now, retentionMs, faults).Some? ==>
            SweepEntry(e, now, retentionMs, faults).value in left)
    decreases |entries|
  {
    if entries != [] {
      var init := entries[..|entries| - 1];
      var last := entries[|entries| - 1];
      SweepEntriesSpec(init, now, retentionMs, faults);
      assert entries == init + [last];
      var left := SweepEntries(entries, now, retentionMs, faults);
      assert left == SweepEntries(init, now, retentionMs, faults) + Present(SweepEntry(last, now, retentionMs, faults));
    }
  }

  /** A file younger than the retention time is still in its folder after a sweep,
      whatever the sweep runs into. */
  lemma FreshFileSurvives(root: Option<seq<Entry>>, folder: string, f: FileEntry, now: int, retentionMs: int,
                          faults: Faults)
    requires Holds(root, folder, f) && !Expired(f.mtime, now, retentionMs)
    ensures Holds(Sweep(root, now, retentionMs, faults), folder, f)
  {
    var i :| 0 <= i < |root.value| && root.value[i].Folder? && root.value[i].name == folder && f in root.value[i].files;
    var e := root.value[i];
    SweepEntryCases(e, now, retentionMs, faults);
    var s := SweepEntry(e, now, retentionMs, faults).value;
    SweepEntriesSpec(root.value, now, retentionMs, faults);
    var left := SweepEntries(root.value, now, retentionMs, faults);
    assert s in left;
    var j :| 0 <= j < |left| && left[j] == s;
    assert Sweep(root, now, retentionMs, faults).value[j] == s;
  }

  lemma SweepEntryIdempotent(e: Entry, now: int, retentionMs: int, faults: Faults)
    ensures var s := SweepEntry(e, now, retentionMs, faults);
      s.Some? ==> SweepEntry(s.value, now, retentionMs, faults) == s
  {
    if e.Folder? && e.name !in faults.unreadable {
      KeptFilesIdempotent(e.name, e.files, now, retentionMs, faults);
    }
  }

  /** A second sweep at the same instant finds nothing more to delete. */
  lemma {:induction false} SweepEntriesIdempotent(entries: seq<Entry>, now: int, retentionMs: int, faults: Faults)
    ensures var left := SweepEntries(entries, now, retentionMs, faults);
      SweepEntries(left, now, retentionMs, faults) == left
    decreases |entries|
  {
    if entries != [] {
      var init := entries[..|entries| - 1];
      var last := entries[|entries| - 1];
      var l0 := SweepEntries(init, now, retentionMs, faults);
      var p := Present(SweepEntry(last, now, retentionMs, faults));
      SweepEntriesIdempotent(init, now, retentionMs, faults);
      SweepEntryIdempotent(last, now, retentionMs, faults);
      if p != [] {
        var v := p[0];
        assert p == [v];
        assert (l0 + p)[..|l0|] == l0 && (l0 + p)[|l0|] == v;
        assert SweepEntries(l0 + p, now, retentionMs, faults)
          == SweepEntries(l0, now, retentionMs, faults) + Present(SweepEntry(v, now, retentionMs, faults));
      } else {
        assert l0 + p == l0;
      }
    }
  }

  lemma SweepIdempotent(root: Option<seq<Entry>>, now: int, retentionMs: int, faults: Faults)
    ensures Sweep(Sweep(root, now, retentionMs, faults), now, retentionMs, faults) == Sweep(root, now, retentionMs, faults)
  {
    if root.Some? {
      SweepEntriesIdempotent(root.value, now, retentionMs, faults);
    }
  }

  /** A sweep never adds files or folders. */
  lemma {:induction false} SweepShrinks(entries: seq<Entry>, now: int, retentionMs: int, faults: Faults)
    ensures var left := SweepEntries(entries, now, retentionMs, faults);
      FileCount(left) <= FileCount(entries) && FolderCount(left) <= FolderCount(entries)
    decreases |entries|
  {
    if entries != [] {
      var init := entries[..|entries| - 1];
      var last := entries[|entries| - 1];
      SweepShrinks(init, now, retentionMs, faults);
      assert entries == init + [last];
      SweepStep(init, last, now, retentionMs, faults);
    }
  }

  /** One more entry in the listing: its remains are appended, and the counts grow by what
      it holds and by what is left of it. */
  lemma SweepStep(prefix: seq<Entry>, e: Entry, now: int, retentionMs: int, faults: Faults)
    ensures var done := SweepEntries(prefix, now, retentionMs, faults);
      var left := SweepEntry(e, now, retentionMs, faults);
      && SweepEntries(prefix + [e], now, retentionMs, faults) == done + Present(left)
      && FileCount(prefix + [e]) == FileCount(prefix) + FilesIn(e)
      && FolderCount(prefix + [e]) == FolderCount(prefix) + (if e.Folder? then 1 else 0)
      && FileCount(done + Present(left)) == FileCount(done) + (if left.Some? then FilesIn(left.value) else 0)
      && FolderCount(done + Present(left)) == FolderCount(done) + (if left.Some? && left.value.Folder? then 1 else 0)
      && (left.Some? ==> FilesIn(left.value) <= FilesIn(e) && left.value.Folder? == e.Folder?)
      && (left.None? ==> e.Folder?)
  {
    var done := SweepEntries(prefix, now, retentionMs, faults);
    var left := SweepEntry(e, now, retentionMs, faults);
    assert (prefix + [e])[..|prefix|] == prefix;
    CountSnoc(prefix, e);
    if left.Some? {
      assert done + Present(left) == done + [left.value];
      CountSnoc(done, left.value);
      if e.Folder? && e.name !in faults.unreadable {
        KeptFilesSpec(e.name, e.files, now, retentionMs, faults);
      }
    } else {
      assert done + Present(left) == done;
    }
  }

  /** Appending one entry adds its files and, for a folder, one to the folder count. */
  lemma CountSnoc(entries: seq<Entry>, e: Entry)
    ensures FileCount(entries + [e]) == FileCount(entries) + FilesIn(e)
    ensures FolderCount(entries + [e]) == FolderCount(entries) + (if e.Folder? then 1 else 0)
  {
    assert (entries + [e])[..|entries|] == entries;
  }

  class CleanupService {
    const downloads: Downloads
    const retentionMs: int
    const intervalMs: int
    /** How many intervals this service has scheduled that are still running. */
    var scheduled: nat
    /** Whether `intervalId` holds a handle. */
    var hasInterval: bool

    predicate Valid()
      reads this
    {
      hasInterval ==> scheduled >= 1
    }

    constructor (downloads: Downloads, retentionMinutes: int)
      ensures this.downloads == downloads
      ensures retentionMs == retentionMinutes * MinuteMs && intervalMs == CheckIntervalMs
      ensures scheduled == 0 && !hasInterval && Valid()
    {
      this.downloads := downloads;
      retentionMs := retentionMinutes * 60 * 1000;
      intervalMs := 60 * 1000;
      scheduled := 0;
      hasInterval := false;
    }

    /** `new CleanupService()`: the retention defaults to ten minutes. */
    constructor Default(downloads: Downloads)
      ensures this.downloads == downloads
      ensures retentionMs == DefaultRetentionMinutes * MinuteMs && retentionMs == 600000
      ensures intervalMs == CheckIntervalMs
      ensures scheduled == 0 && !hasInterval && Valid()
    {
      this.downloads := downloads;
      retentionMs := DefaultRetentionMinutes * 60 * 1000;
      intervalMs := 60 * 1000;
      scheduled := 0;
      hasInterval := false;
    }

    /** `start`: a sweep now, then one every `intervalMs`. A second `start` schedules a
        second interval and keeps only the newer handle. */
    method Start(now: int, faults: Faults)
      requires Valid()
      modifies this, downloads
      ensures Valid() && hasInterval && scheduled == old(scheduled) + 1
      ensures downloads.root == Sweep(old(downloads.root), now, retentionMs, faults)
    {
      var files, folders := Cleanup(now, faults);
      scheduled := scheduled + 1;
      hasInterval := true;
    }

    /** `stop`: cancels the interval the handle names, if any. */
    method Stop()
      requires Valid()
      modifies this
      ensures Valid() && !hasInterval
      ensures scheduled == if old(hasInterval) then old(scheduled) - 1 else old(scheduled)
    {
      if hasInterval {
        scheduled := scheduled - 1;
        hasInterval := false;
      }
    }

    /** The interval firing. */
    method Tick(now: int, faults: Faults) returns (deletedFiles: int, deletedFolders: int)
      requires scheduled >= 1
      modifies downloads
      ensures downloads.root == Sweep(old(downloads.root), now, retentionMs, faults)
    {
      deletedFiles, deletedFolders := Cleanup(now, faults);
    }

    /** `cleanupNow`. */
    method CleanupNow(now: int, faults: Faults) returns (deletedFiles: int, deletedFolders: int)
      modifies downloads
      ensures downloads.root == Sweep(old(downloads.root), now, retentionMs, faults)
      ensures old(downloads.root).None? ==> deletedFiles == 0 && deletedFolders == 0
      ensures old(downloads.root).Some? ==>
        && deletedFiles == FileCount(old(downloads.root).value) - FileCount(downloads.root.value)
        && deletedFolders == FolderCount(old(downloads.root).value) - FolderCount(downloads.root.value)
    {
      deletedFiles, deletedFolders := Cleanup(now, faults);
    }

    /** `cleanup`: one pass over the top-level entries, each day folder swept in turn and
        the directory updated after each; the counters are what the summary line logs. */
    method Cleanup(now: int, faults: Faults) returns (deletedFiles: int, deletedFolders: int)
      modifies downloads
      ensures downloads.root == Sweep(old(downloads.root), now, retentionMs, faults)
      ensures old(downloads.root).None? ==> deletedFiles == 0 && deletedFolders == 0
      ensures old(downloads.root).Some? ==>
        && deletedFiles == FileCount(old(downloads.root).value) - FileCount(downloads.root.value)
        && deletedFolders == FolderCount(old(downloads.root).value) - FolderCount(downloads.root.value)
    {
      deletedFiles, deletedFolders := 0, 0;
      if downloads.root.None? {
        return;
      }
      var folders := downloads.root.value;
      var done: seq<Entry> := [];
      var i := 0;
      assert done + folders[i..] == folders;
      while i < |folders|
        invariant 0 <= i <= |folders|
        invariant done == SweepEntries(folders[..i], now, retentionMs, faults)
        invariant downloads.root == Some(done + folders[i..])
        invariant deletedFiles == FileCount(folders[..i]) - FileCount(done)
        invariant deletedFolders == FolderCount(folders[..i]) - FolderCount(done)
      {
        var entry := folders[i];
        var left, removed := SweepFolder(entry, now, faults);
        SweepStep(folders[..i], entry, now, retentionMs, faults);
        PrefixSnoc(folders, i);
        done := done + Present(left);
        downloads.root := Some(done + folders[i + 1..]);
        deletedFiles := deletedFiles + removed;
        if left.None? {
          deletedFolders := deletedFolders + 1;
        }
        i := i + 1;
      }
      assert folders[..i] == folders;
      assert done + folders[i..] == done;
      assert done == SweepEntries(folders, now, retentionMs, faults);
    }

    /** One entry of the listing: a plain file or an unreadable folder is skipped; a day
        folder has each expired file deleted (unless deleting it fails) and is removed if
        that leaves it empty. `removed` counts the files deleted. */
    method SweepFolder(entry: Entry, now: int, faults: Faults) returns (left: Option<Entry>, removed: int)
      ensures left == SweepEntry(entry, now, retentionMs, faults)
      ensures removed == FilesIn(entry) - (if left.Some? then FilesIn(left.value) else 0)
    {
      if entry.Plain? || entry.name in faults.unreadable {
        return Some(entry), 0;
      }
      var files := entry.files;
      var kept: seq<FileEntry> := [];
      removed := 0;
      var j := 0;
      while j < |files|
        invariant 0 <= j <= |files|
        invariant kept == KeptFiles(entry.name, files[..j], now, retentionMs, faults)
        invariant removed == j - |kept|
      {
        var f := files[j];
        assert files[..j + 1][..j] == files[..j];
        if Expired(f.mtime, now, retentionMs) && (entry.name, f.name) !in faults.stuck {
          removed := removed + 1;
        } else {
          kept := kept + [f];
        }
        j := j + 1;
      }
      assert files[..j] == files;
      if kept == [] && entry.name !in faults.unremovable {
        left := None;
      } else {
        left := Some(Folder(entry.name, kept));
      }
    }
  }
}
