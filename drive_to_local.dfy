/**
 * `DriveLocalSyncer`: the remote-to-local pass. It walks the listed Drive tree depth
 * first, creates a local directory and a folder row for every folder, and downloads
 * (exporting native Google documents) every file the change detector calls stale.
 *
 * The pass is specified by the `Pull*` functions on a `World` value; the methods of
 * the class change the index, the disk and the request log exactly as those say.
 */
module DriveToLocal {
  import opened Wrappers
  import opened Errors
  import opened LocalFs
  import opened Remote
  import opened Records
  import opened Database

  const DOC_MIME := "application/vnd.google-apps.document"
  const SHEET_MIME := "application/vnd.google-apps.spreadsheet"
  const SLIDES_MIME := "application/vnd.google-apps.presentation"
  const PDF_MIME := "application/pdf"
  const XLSX_MIME := "application/vnd.openxmlformats-officedocument.spreadsheetml.sheet"

  /** `EXPORT_MIME_MAP`: native Google type to (export type, file extension). */
  const EXPORT_MIME_MAP: map<string, (string, string)> := map[
    DOC_MIME := (PDF_MIME, ".pdf"),
    SHEET_MIME := (XLSX_MIME, ".xlsx"),
    SLIDES_MIME := (PDF_MIME, ".pdf")]

  /** `EXPORT_MIME_MAP.get(mime_type, (None, None))`. */
  function ExportFor(mime: string): (r: Option<(string, string)>)
    ensures mime == DOC_MIME ==> r == Some((PDF_MIME, ".pdf"))
    ensures mime == SHEET_MIME ==> r == Some((XLSX_MIME, ".xlsx"))
    ensures mime == SLIDES_MIME ==> r == Some((PDF_MIME, ".pdf"))
    ensures r.None? <==> mime != DOC_MIME && mime != SHEET_MIME && mime != SLIDES_MIME
    ensures r.Some? ==> r.value.0 != "" && r.value.1 != ""
  {
    if mime in EXPORT_MIME_MAP then Some(EXPORT_MIME_MAP[mime]) else None
  }

  /** The file name `_perform_download` writes: the name, plus the extension when exported. */
  function DownloadName(name: string, mime: string): (r: string)
    ensures ExportFor(mime).None? ==> r == name
    ensures ExportFor(mime).Some? ==> r == name + ExportFor(mime).value.1 && r != name
  {
    match ExportFor(mime)
    case None => name
    case Some((_, extension)) =>
      assert |name + extension| > |name|;
      name + extension
  }

  /** The request `_perform_download` builds: an export for native documents, else the media. */
  function DownloadRequest(id: string, mime: string): (r: Request)
    ensures ExportFor(mime).Some? <==> r.ExportMedia?
    ensures r.ExportMedia? ==> r == ExportMedia(id, ExportFor(mime).value.0)
    ensures r.GetMedia? ==> r.id == id
  {
    match ExportFor(mime)
    case None => GetMedia(id)
    case Some((exportMime, _)) => ExportMedia(id, exportMime)
  }

  /** `_needs_update` of the download direction; `local` is the `stat()` of `local_path / name`,
      or None when nothing is there. Err is the AttributeError of a missing `modifiedTime`. */
  function NeedsDownload(item: DriveItem, local: Option<Stat>): (r: Result<bool, Error>)
    // a missing local file is always fetched, whatever the sizes and times
    ensures local.None? ==> r == Ok(true)
    // a remote size not above the local one never triggers a download, equal sizes included
    ensures local.Some? && SizeOrZero(item) <= local.value.size ==> r == Ok(false)
    // a larger remote copy is fetched exactly when its tz-stripped time is strictly later
    ensures local.Some? && SizeOrZero(item) > local.value.size ==>
              && (r.Err? <==> RemoteTime(item).None?)
              && (r.Ok? ==> r.value == (RemoteTime(item).value > local.value.mtime))
  {
    if local.None? then Ok(true)
    else if SizeOrZero(item) <= local.value.size then Ok(false)
    else
      match RemoteTime(item)
      case None => Err(AttributeError)
      case Some(remoteMtime) => Ok(remoteMtime > local.value.mtime)
  }

  /** An item without a "size" never triggers a download once something exists locally. */
  lemma SizelessItemNeverDownloaded(item: DriveItem, local: Stat)
    requires item.size.None?
    ensures NeedsDownload(item, Some(local)) == Ok(false)
  {
  }

  /** What the pass acts on: the index, the local disk and the Drive request log. */
  datatype World = World(index: IndexState, disk: Disk, sent: seq<Request>)

  /** The world after a step, and whether the step returned normally (false: an exception
      escaped and ends the whole pass). */
  datatype Progress = Progress(world: World, ok: bool)

  /** `_download_file` with `_perform_download`: open the target (a directory there raises
      before any request), fetch, write, record; every failure is caught and logged. A
      failed fetch leaves the file `open("wb")` created, empty. */
  function PullDownload(w: World, reply: (nat, Request) -> Reply, item: DriveItem, mime: string,
                        folder: Path, parentId: Option<int>): (r: World)
    // a failed transfer records nothing
    ensures !reply(|w.sent|, DownloadRequest(item.id, mime)).Content? ==> r.index == w.index
    // at most the one download request is sent
    ensures r.sent == w.sent || r.sent == w.sent + [DownloadRequest(item.id, mime)]
    // only the target file changes on disk
    ensures forall q :: q != folder + [DownloadName(item.name, mime)] ==> Lookup(r.disk, q) == Lookup(w.disk, q)
    // a directory at the target: nothing happens
    ensures var t := Lookup(w.disk, folder + [DownloadName(item.name, mime)]);
            t.Some? && t.value.Dir? ==> r == w
    // otherwise the request is sent and the target is written: empty when the fetch fails
    ensures var target := folder + [DownloadName(item.name, mime)];
            var answer := reply(|w.sent|, DownloadRequest(item.id, mime));
            !(Lookup(w.disk, target).Some? && Lookup(w.disk, target).value.Dir?) ==>
              && r.sent == w.sent + [DownloadRequest(item.id, mime)]
              && Lookup(r.disk, target) ==
                   if answer.Content? then Some(File(Stat(answer.size, w.disk.clock), answer.digest))
                   else Some(File(Stat(0, w.disk.clock), EMPTY_DIGEST))
    // a delivered fetch is recorded: a file row for the item at the target, under `parentId`,
    // unless a row of another remote id already holds that path
    ensures var target := folder + [DownloadName(item.name, mime)];
            var answer := reply(|w.sent|, DownloadRequest(item.id, mime));
            && !(Lookup(w.disk, target).Some? && Lookup(w.disk, target).value.Dir?)
            && answer.Content?
            && (forall rec :: rec in w.index.files && rec.fields.localPath == target ==> rec.fields.remoteId == item.id)
            ==>
            exists rec :: && rec in r.index.files
                          && rec.fields.remoteId == item.id && rec.fields.localPath == target
                          && rec.fields.kind == FileKind && rec.fields.parentId == parentId
                          && rec.fields.fileSize == Some(SizeOrZero(item))
                          && rec.fields.localSize == Some(answer.size)
  {
    var target := folder + [DownloadName(item.name, mime)];
    var existing := Lookup(w.disk, target);
    if existing.Some? && existing.value.Dir? then w
    else
      var req := DownloadRequest(item.id, mime);
      var answer := reply(|w.sent|, req);
      if !answer.Content? then
        World(w.index, WriteFile(w.disk, target, 0, EMPTY_DIGEST), w.sent + [req])
      else
        var disk := WriteFile(w.disk, target, answer.size, answer.digest);
        var (index, written) := UpsertItem(w.index, item, target, parentId, FileKind, Lookup(disk, target));
        assert written.Ok? ==> written.value in index.files;
        World(index, disk, w.sent + [req])
  }

  /** `_process_file_item`: check `folder / name`, download when stale. */
  function PullFileItem(w: World, reply: (nat, Request) -> Reply, item: DriveItem, mime: string,
                        folder: Path, parentId: Option<int>): (r: Progress)
    // a failing download is caught: only the change detector's own error escapes
    ensures r.ok <==> NeedsDownload(item, StatOf(Lookup(w.disk, folder + [item.name]))).Ok?
    ensures NeedsDownload(item, StatOf(Lookup(w.disk, folder + [item.name]))) != Ok(true) ==> r.world == w
    // when it says yes, the download runs and the walk goes on
    ensures NeedsDownload(item, StatOf(Lookup(w.disk, folder + [item.name]))) == Ok(true) ==>
              r == Progress(PullDownload(w, reply, item, mime, folder, parentId), true)
  {
    match NeedsDownload(item, StatOf(Lookup(w.disk, folder + [item.name])))
    case Err(_) => Progress(w, false)
    case Ok(false) => Progress(w, true)
    case Ok(true) => Progress(PullDownload(w, reply, item, mime, folder, parentId), true)
  }

  /** `_process_folder_item`: make the directory, upsert the folder row under `parentId`,
      then walk the children with the new row's id as their parent. */
  function PullFolderItem(w: World, reply: (nat, Request) -> Reply, node: RemoteNode,
                          folder: Path, parentId: Option<int>): (r: Progress)
    // the remote-to-local walk only ever fetches from Drive
    ensures w.sent <= r.world.sent
    ensures forall i :: |w.sent| <= i < |r.world.sent| ==> Fetches(r.world.sent[i])
    decreases node, 1
  {
    var path := folder + [node.item.name];
    match MakeDir(w.disk, path)
    case None => Progress(w, false)
    case Some(disk) =>
      var (index, rec) := UpsertItem(w.index, node.item, path, parentId, FolderKind, Lookup(disk, path));
      if rec.Err? then Progress(World(index, disk, w.sent), false)
      else PullFolder(World(index, disk, w.sent), reply, node.children, path, Some(rec.value.id))
  }

  /** The two ways a folder item raises out of the pass: `mkdir` where a file is, before
      anything changes, and a rejected folder upsert, after the directory is made and with
      nothing recorded or sent. */
  lemma FolderItemFailures(w: World, reply: (nat, Request) -> Reply, node: RemoteNode,
                           folder: Path, parentId: Option<int>)
    ensures MakeDir(w.disk, folder + [node.item.name]).None? ==>
              PullFolderItem(w, reply, node, folder, parentId) == Progress(w, false)
    ensures var path := folder + [node.item.name];
            var disk := MakeDir(w.disk, path);
            var r := PullFolderItem(w, reply, node, folder, parentId);
            disk.Some? && UpsertItem(w.index, node.item, path, parentId, FolderKind, Lookup(disk.value, path)).1.Err? ==>
              && !r.ok && r.world.index == w.index && r.world.sent == w.sent
              && r.world.disk == disk.value
  {
  }

  /** One listed item: `is_folder and _process_folder_item(...) or _process_file_item(...)`.
      The folder handler returns None, so a folder goes on to the file handler as well. */
  function PullItem(w: World, reply: (nat, Request) -> Reply, node: RemoteNode,
                    folder: Path, parentId: Option<int>): (r: Progress)
    // the remote-to-local walk only ever fetches from Drive
    ensures w.sent <= r.world.sent
    ensures forall i :: |w.sent| <= i < |r.world.sent| ==> Fetches(r.world.sent[i])
    decreases node, 2
  {
    if node.mimeType == FOLDER_MIME then
      var p := PullFolderItem(w, reply, node, folder, parentId);
      if !p.ok then p else PullFileItem(p.world, reply, node.item, node.mimeType, folder, parentId)
    else
      PullFileItem(w, reply, node.item, node.mimeType, folder, parentId)
  }

  /** `_process_folder`: the listed items in order; an escaping exception stops the walk. */
  function PullFolder(w: World, reply: (nat, Request) -> Reply, items: seq<RemoteNode>,
                      folder: Path, parentId: Option<int>): (r: Progress)
    // the remote-to-local walk only ever fetches from Drive
    ensures w.sent <= r.world.sent
    ensures forall i :: |w.sent| <= i < |r.world.sent| ==> Fetches(r.world.sent[i])
    decreases items, 3
  {
    if items == [] then Progress(w, true)
    else
      var p := PullFolder(w, reply, items[..|items| - 1], folder, parentId);
      if !p.ok then p else PullItem(p.world, reply, items[|items| - 1], folder, parentId)
  }

  /** Once a prefix of the listing has aborted, the rest of the listing is not visited. */
  lemma {:induction false} PullAbortSticks(w: World, reply: (nat, Request) -> Reply, items: seq<RemoteNode>,
                                           folder: Path, parentId: Option<int>, k: nat)
    requires k <= |items|
    requires !PullFolder(w, reply, items[..k], folder, parentId).ok
    ensures PullFolder(w, reply, items, folder, parentId) == PullFolder(w, reply, items[..k], folder, parentId)
    decreases |items| - k
  {
    if k < |items| {
      var prefix := items[..|items| - 1];
      assert prefix[..k] == items[..k];
      PullAbortSticks(w, reply, prefix, folder, parentId, k);
    } else {
      assert items[..k] == items;
    }
  }

  // ---------------------------------------------------------------------------------
  // The index stays consistent.
  // ---------------------------------------------------------------------------------

  ghost predicate IndexOk(w: World, parentId: Option<int>)
  {
    Consistent(w.index) && ParentKnown(w.index.files, parentId)
  }

  lemma PullDownloadKeepsConsistent(w: World, reply: (nat, Request) -> Reply, item: DriveItem, mime: string,
                                    folder: Path, parentId: Option<int>)
    requires IndexOk(w, parentId)
    ensures var r := PullDownload(w, reply, item, mime, folder, parentId);
            Consistent(r.index) && Ids(w.index.files) <= Ids(r.index.files)
  {
    var target := folder + [DownloadName(item.name, mime)];
    var answer := reply(|w.sent|, DownloadRequest(item.id, mime));
    if answer.Content? {
      var disk := WriteFile(w.disk, target, answer.size, answer.digest);
      UpsertItemKeepsConsistent(w.index, item, target, parentId, FileKind, Lookup(disk, target));
    }
  }

  /** Every row the pass writes keeps the table constraints, and every `parent_id` it
      writes is 0 or the id of a folder row it wrote first: no id is ever lost. */
  lemma {:induction false} PullFolderKeepsConsistent(w: World, reply: (nat, Request) -> Reply, items: seq<RemoteNode>,
                                                     folder: Path, parentId: Option<int>)
    requires IndexOk(w, parentId)
    ensures var r := PullFolder(w, reply, items, folder, parentId);
            Consistent(r.world.index) && Ids(w.index.files) <= Ids(r.world.index.files)
    decreases items, 3
  {
    if items != [] {
      var prefix := items[..|items| - 1];
      PullFolderKeepsConsistent(w, reply, prefix, folder, parentId);
      var p := PullFolder(w, reply, prefix, folder, parentId);
      if p.ok {
        PullItemKeepsConsistent(p.world, reply, items[|items| - 1], folder, parentId);
      }
    }
  }

  lemma {:induction false} PullItemKeepsConsistent(w: World, reply: (nat, Request) -> Reply, node: RemoteNode,
                                                   folder: Path, parentId: Option<int>)
    requires IndexOk(w, parentId)
    ensures var r := PullItem(w, reply, node, folder, parentId);
            Consistent(r.world.index) && Ids(w.index.files) <= Ids(r.world.index.files)
    decreases node, 2
  {
    var w1 := w;
    if node.mimeType == FOLDER_MIME {
      PullFolderItemKeepsConsistent(w, reply, node, folder, parentId);
      w1 := PullFolderItem(w, reply, node, folder, parentId).world;
    }
    if NeedsDownload(node.item, StatOf(Lookup(w1.disk, folder + [node.item.name]))) == Ok(true) {
      PullDownloadKeepsConsistent(w1, reply, node.item, node.mimeType, folder, parentId);
    }
  }

  lemma {:induction false} PullFolderItemKeepsConsistent(w: World, reply: (nat, Request) -> Reply, node: RemoteNode,
                                                         folder: Path, parentId: Option<int>)
    requires IndexOk(w, parentId)
    ensures var r := PullFolderItem(w, reply, node, folder, parentId);
            Consistent(r.world.index) && Ids(w.index.files) <= Ids(r.world.index.files)
    decreases node, 1
  {
    var path := folder + [node.item.name];
    var disk := MakeDir(w.disk, path);
    if disk.Some? {
      UpsertItemKeepsConsistent(w.index, node.item, path, parentId, FolderKind, Lookup(disk.value, path));
      var (index, rec) := UpsertItem(w.index, node.item, path, parentId, FolderKind, Lookup(disk.value, path));
      if rec.Ok? {
        PullFolderKeepsConsistent(World(index, disk.value, w.sent), reply, node.children, path, Some(rec.value.id));
      }
    }
  }

  /** The whole pass, started with the top-level `parent_id=0`, keeps the index consistent. */
  lemma PullPassKeepsConsistent(w: World, reply: (nat, Request) -> Reply, listing: seq<RemoteNode>, root: Path)
    requires Consistent(w.index)
    ensures Consistent(PullFolder(w, reply, listing, root, Some(ROOT_PARENT)).world.index)
  {
    PullFolderKeepsConsistent(w, reply, listing, root, Some(ROOT_PARENT));
  }

  // ---------------------------------------------------------------------------------
  // The disk changes only inside the folder being walked.
  // ---------------------------------------------------------------------------------

  ghost predicate SameOutside(d: Disk, d': Disk, folder: Path)
  {
    forall q :: !Below(folder, q) ==> Lookup(d', q) == Lookup(d, q)
  }

  /** Going into a subfolder keeps its changes inside the parent. */
  lemma SameOutsideWidens(d: Disk, d': Disk, folder: Path, name: string)
    requires SameOutside(d, d', folder + [name])
    ensures SameOutside(d, d', folder)
  {
    forall q | !Below(folder, q) ensures Lookup(d', q) == Lookup(d, q) {
      ChildIsBelow(folder, name);
      if Below(folder + [name], q) {
        BelowTransitive(folder, folder + [name], q);
      }
    }
  }

  lemma {:induction false} PullFolderStaysInside(w: World, reply: (nat, Request) -> Reply, items: seq<RemoteNode>,
                                                 folder: Path, parentId: Option<int>)
    ensures SameOutside(w.disk, PullFolder(w, reply, items, folder, parentId).world.disk, folder)
    decreases items, 3
  {
    if items != [] {
      var prefix := items[..|items| - 1];
      PullFolderStaysInside(w, reply, prefix, folder, parentId);
      var p := PullFolder(w, reply, prefix, folder, parentId);
      if p.ok {
        PullItemStaysInside(p.world, reply, items[|items| - 1], folder, parentId);
      }
    }
  }

  lemma {:induction false} PullItemStaysInside(w: World, reply: (nat, Request) -> Reply, node: RemoteNode,
                                               folder: Path, parentId: Option<int>)
    ensures SameOutside(w.disk, PullItem(w, reply, node, folder, parentId).world.disk, folder)
    decreases node, 2
  {
    var w1 := w;
    if node.mimeType == FOLDER_MIME {
      PullFolderItemStaysInside(w, reply, node, folder, parentId);
      w1 := PullFolderItem(w, reply, node, folder, parentId).world;
    }
    ChildIsBelow(folder, DownloadName(node.item.name, node.mimeType));
  }

  lemma {:induction false} PullFolderItemStaysInside(w: World, reply: (nat, Request) -> Reply, node: RemoteNode,
                                                     folder: Path, parentId: Option<int>)
    ensures SameOutside(w.disk, PullFolderItem(w, reply, node, folder, parentId).world.disk, folder)
    decreases node, 1
  {
    var path := folder + [node.item.name];
    ChildIsBelow(folder, node.item.name);
    var disk := MakeDir(w.disk, path);
    if disk.Some? {
      var (index, rec) := UpsertItem(w.index, node.item, path, parentId, FolderKind, Lookup(disk.value, path));
      if rec.Ok? {
        var w1 := World(index, disk.value, w.sent);
        PullFolderStaysInside(w1, reply, node.children, path, Some(rec.value.id));
        SameOutsideWidens(w1.disk, PullFolder(w1, reply, node.children, path, Some(rec.value.id)).world.disk,
                          folder, node.item.name);
      }
    }
  }

  /** A folder also reaches the file handler, which finds the directory just made at
      `folder / name` and, the folder having no "size", downloads nothing. */
  lemma FolderNeverDownloadedAsFile(w: World, reply: (nat, Request) -> Reply, node: RemoteNode,
                                    folder: Path, parentId: Option<int>)
    requires node.mimeType == FOLDER_MIME && node.item.size.None?
    requires PullFolderItem(w, reply, node, folder, parentId).ok
    ensures PullItem(w, reply, node, folder, parentId) == PullFolderItem(w, reply, node, folder, parentId)
  {
    var path := folder + [node.item.name];
    var disk := MakeDir(w.disk, path).value;
    var (index, rec) := UpsertItem(w.index, node.item, path, parentId, FolderKind, Lookup(disk, path));
    var w1 := World(index, disk, w.sent);
    PullFolderStaysInside(w1, reply, node.children, path, Some(rec.value.id));
    var p := PullFolder(w1, reply, node.children, path, Some(rec.value.id));
    assert !Below(path, path);
    assert Lookup(p.world.disk, path) == Lookup(disk, path);
    SizelessItemNeverDownloaded(node.item, Lookup(disk, path).value.stat);
  }

  // ---------------------------------------------------------------------------------
  // Rows the walk touches.
  // ---------------------------------------------------------------------------------

  /** The remote ids listed in a walked tree. */
  ghost function ForestIds(items: seq<RemoteNode>): set<string>
    decreases items
  {
    if items == [] then {} else ForestIds(items[..|items| - 1]) + NodeIds(items[|items| - 1])
  }

  ghost function NodeIds(node: RemoteNode): set<string>
    decreases node
  {
    {node.item.id} + ForestIds(node.children)
  }

  ghost predicate KeepsUnlisted(s: IndexState, s': IndexState, ids: set<string>)
  {
    forall rec :: rec in s.files && rec.fields.remoteId !in ids ==> rec in s'.files
  }

  lemma {:induction false} PullFolderKeepsUnlisted(w: World, reply: (nat, Request) -> Reply, items: seq<RemoteNode>,
                                                   folder: Path, parentId: Option<int>)
    ensures KeepsUnlisted(w.index, PullFolder(w, reply, items, folder, parentId).world.index, ForestIds(items))
    decreases items, 3
  {
    if items != [] {
      var prefix := items[..|items| - 1];
      PullFolderKeepsUnlisted(w, reply, prefix, folder, parentId);
      var p := PullFolder(w, reply, prefix, folder, parentId);
      if p.ok {
        PullItemKeepsUnlisted(p.world, reply, items[|items| - 1], folder, parentId);
      }
    }
  }

  lemma {:induction false} PullItemKeepsUnlisted(w: World, reply: (nat, Request) -> Reply, node: RemoteNode,
                                                 folder: Path, parentId: Option<int>)
    ensures KeepsUnlisted(w.index, PullItem(w, reply, node, folder, parentId).world.index, NodeIds(node))
    decreases node, 2
  {
    var w1 := w;
    if node.mimeType == FOLDER_MIME {
      PullFolderItemKeepsUnlisted(w, reply, node, folder, parentId);
      w1 := PullFolderItem(w, reply, node, folder, parentId).world;
    }
    var target := folder + [DownloadName(node.item.name, node.mimeType)];
    var answer := reply(|w1.sent|, DownloadRequest(node.item.id, node.mimeType));
    if answer.Content? {
      var disk := WriteFile(w1.disk, target, answer.size, answer.digest);
      UpsertItemKeepsOthers(w1.index, node.item, target, parentId, FileKind, Lookup(disk, target));
    }
  }

  lemma {:induction false} PullFolderItemKeepsUnlisted(w: World, reply: (nat, Request) -> Reply, node: RemoteNode,
                                                       folder: Path, parentId: Option<int>)
    ensures KeepsUnlisted(w.index, PullFolderItem(w, reply, node, folder, parentId).world.index, NodeIds(node))
    decreases node, 1
  {
    var path := folder + [node.item.name];
    var disk := MakeDir(w.disk, path);
    if disk.Some? {
      UpsertItemKeepsOthers(w.index, node.item, path, parentId, FolderKind, Lookup(disk.value, path));
      var (index, rec) := UpsertItem(w.index, node.item, path, parentId, FolderKind, Lookup(disk.value, path));
      if rec.Ok? {
        PullFolderKeepsUnlisted(World(index, disk.value, w.sent), reply, node.children, path, Some(rec.value.id));
      }
    }
  }

  /** A folder item that the walk finishes gets its directory at `folder / name` and a
      folder row with that path and the walk's current `parent_id` (when no descendant
      reuses its remote id). */
  lemma FolderItemIndexed(w: World, reply: (nat, Request) -> Reply, node: RemoteNode,
                          folder: Path, parentId: Option<int>)
    requires PullFolderItem(w, reply, node, folder, parentId).ok
    requires node.item.id !in ForestIds(node.children)
    ensures var r := PullFolderItem(w, reply, node, folder, parentId).world;
            && Lookup(r.disk, folder + [node.item.name]).Some?
            && Lookup(r.disk, folder + [node.item.name]).value.Dir?
            && exists rec :: && rec in r.index.files && rec.fields.remoteId == node.item.id
                             && rec.fields.kind == FolderKind && rec.fields.localPath == folder + [node.item.name]
                             && rec.fields.parentId == parentId
  {
    var path := folder + [node.item.name];
    var disk := MakeDir(w.disk, path).value;
    var (index, rec) := UpsertItem(w.index, node.item, path, parentId, FolderKind, Lookup(disk, path));
    var w1 := World(index, disk, w.sent);
    PullFolderKeepsUnlisted(w1, reply, node.children, path, Some(rec.value.id));
    PullFolderStaysInside(w1, reply, node.children, path, Some(rec.value.id));
    assert !Below(path, path);
    assert rec.value in PullFolder(w1, reply, node.children, path, Some(rec.value.id)).world.index.files;
  }

  // ---------------------------------------------------------------------------------
  // Parent links.
  // ---------------------------------------------------------------------------------

  /** Every row of `s'` that is not in `s` lies inside `folder`, and those directly inside
      it carry `parentId`. */
  ghost predicate LinksWritten(s: IndexState, s': IndexState, folder: Path, parentId: Option<int>)
  {
    forall rec :: rec in s'.files && rec !in s.files ==>
      && Below(folder, rec.fields.localPath)
      && (Parent(rec.fields.localPath) == folder ==> rec.fields.parentId == parentId)
  }

  lemma LinksWrittenChain(s: IndexState, s1: IndexState, s2: IndexState, folder: Path, parentId: Option<int>)
    requires LinksWritten(s, s1, folder, parentId) && LinksWritten(s1, s2, folder, parentId)
    ensures LinksWritten(s, s2, folder, parentId)
  {
  }

  /** Rows written inside a subfolder under its own row's id lie inside the parent folder,
      and none of them is directly inside it. */
  lemma LinksWrittenWidens(s: IndexState, s': IndexState, folder: Path, name: string, childId: Option<int>,
                           parentId: Option<int>)
    requires LinksWritten(s, s', folder + [name], childId)
    ensures LinksWritten(s, s', folder, parentId)
  {
    ChildIsBelow(folder, name);
    forall rec | rec in s'.files && rec !in s.files
      ensures Below(folder, rec.fields.localPath) && Parent(rec.fields.localPath) != folder
    {
      BelowTransitive(folder, folder + [name], rec.fields.localPath);
    }
  }

  lemma PullDownloadLinks(w: World, reply: (nat, Request) -> Reply, item: DriveItem, mime: string,
                          folder: Path, parentId: Option<int>)
    ensures LinksWritten(w.index, PullDownload(w, reply, item, mime, folder, parentId).index, folder, parentId)
  {
    var target := folder + [DownloadName(item.name, mime)];
    ChildIsBelow(folder, DownloadName(item.name, mime));
    var answer := reply(|w.sent|, DownloadRequest(item.id, mime));
    if answer.Content? {
      var disk := WriteFile(w.disk, target, answer.size, answer.digest);
      UpsertItemKeepsOthers(w.index, item, target, parentId, FileKind, Lookup(disk, target));
    }
  }

  /** The walk of a listing writes rows only inside its folder, and the rows directly
      inside it get the walk's `parent_id`; deeper rows get their own folder row's id. */
  lemma {:induction false} PullFolderLinks(w: World, reply: (nat, Request) -> Reply, items: seq<RemoteNode>,
                                           folder: Path, parentId: Option<int>)
    ensures LinksWritten(w.index, PullFolder(w, reply, items, folder, parentId).world.index, folder, parentId)
    decreases items, 3
  {
    if items != [] {
      var prefix := items[..|items| - 1];
      PullFolderLinks(w, reply, prefix, folder, parentId);
      var p := PullFolder(w, reply, prefix, folder, parentId);
      if p.ok {
        PullItemLinks(p.world, reply, items[|items| - 1], folder, parentId);
        LinksWrittenChain(w.index, p.world.index,
                          PullItem(p.world, reply, items[|items| - 1], folder, parentId).world.index, folder, parentId);
      }
    }
  }

  lemma {:induction false} PullItemLinks(w: World, reply: (nat, Request) -> Reply, node: RemoteNode,
                                         folder: Path, parentId: Option<int>)
    ensures LinksWritten(w.index, PullItem(w, reply, node, folder, parentId).world.index, folder, parentId)
    decreases node, 2
  {
    var w1 := w;
    if node.mimeType == FOLDER_MIME {
      PullFolderItemLinks(w, reply, node, folder, parentId);
      w1 := PullFolderItem(w, reply, node, folder, parentId).world;
    }
    PullDownloadLinks(w1, reply, node.item, node.mimeType, folder, parentId);
  }

  lemma {:induction false} PullFolderItemLinks(w: World, reply: (nat, Request) -> Reply, node: RemoteNode,
                                               folder: Path, parentId: Option<int>)
    ensures LinksWritten(w.index, PullFolderItem(w, reply, node, folder, parentId).world.index, folder, parentId)
    decreases node, 1
  {
    var path := folder + [node.item.name];
    ChildIsBelow(folder, node.item.name);
    var disk := MakeDir(w.disk, path);
    if disk.Some? {
      UpsertItemKeepsOthers(w.index, node.item, path, parentId, FolderKind, Lookup(disk.value, path));
      var (index, rec) := UpsertItem(w.index, node.item, path, parentId, FolderKind, Lookup(disk.value, path));
      if rec.Ok? {
        var w1 := World(index, disk.value, w.sent);
        var r := PullFolder(w1, reply, node.children, path, Some(rec.value.id));
        PullFolderLinks(w1, reply, node.children, path, Some(rec.value.id));
        LinksWrittenWidens(w1.index, r.world.index, folder, node.item.name, Some(rec.value.id), parentId);
        LinksWrittenChain(w.index, w1.index, r.world.index, folder, parentId);
      }
    }
  }

  /** A finished folder item has a folder row at `folder / name` whose id is the
      `parent_id` of every row its walk wrote directly inside that directory. */
  lemma FolderChildrenLinked(w: World, reply: (nat, Request) -> Reply, node: RemoteNode,
                             folder: Path, parentId: Option<int>)
    requires PullFolderItem(w, reply, node, folder, parentId).ok
    requires node.item.id !in ForestIds(node.children)
    ensures var r := PullFolderItem(w, reply, node, folder, parentId).world;
            var path := folder + [node.item.name];
            exists row :: && row in r.index.files && row.fields.remoteId == node.item.id
                          && row.fields.kind == FolderKind && row.fields.localPath == path
                          && row.fields.parentId == parentId
                          && forall rec :: rec in r.index.files && rec !in w.index.files
                                           && Parent(rec.fields.localPath) == path ==>
                                             rec.fields.parentId == Some(row.id)
  {
    var path := folder + [node.item.name];
    ChildIsBelow(folder, node.item.name);
    var disk := MakeDir(w.disk, path).value;
    UpsertItemKeepsOthers(w.index, node.item, path, parentId, FolderKind, Lookup(disk, path));
    var (index, row) := UpsertItem(w.index, node.item, path, parentId, FolderKind, Lookup(disk, path));
    var w1 := World(index, disk, w.sent);
    var r := PullFolder(w1, reply, node.children, path, Some(row.value.id));
    PullFolderKeepsUnlisted(w1, reply, node.children, path, Some(row.value.id));
    PullFolderLinks(w1, reply, node.children, path, Some(row.value.id));
    assert row.value in r.world.index.files;
    forall rec | rec in r.world.index.files && rec !in w.index.files && Parent(rec.fields.localPath) == path
      ensures rec.fields.parentId == Some(row.value.id)
    {
      // the folder's own row sits at `path`, whose parent is `folder`, so `rec` is a child's row
      assert rec !in w1.index.files;
    }
  }

  // ---------------------------------------------------------------------------------
  // Re-download behaviour.
  // ---------------------------------------------------------------------------------

  /** The existence check looks at `folder / name` but an exported document is written to
      `folder / (name + extension)`: the checked path stays missing, so the export is
      requested again on every pass. */
  lemma ExportedItemStaysMissing(w: World, reply: (nat, Request) -> Reply, item: DriveItem, mime: string,
                                 folder: Path, parentId: Option<int>)
    requires ExportFor(mime).Some?
    requires Lookup(w.disk, folder + [item.name]).None?
    requires var t := Lookup(w.disk, folder + [DownloadName(item.name, mime)]); !(t.Some? && t.value.Dir?)
    ensures var p := PullFileItem(w, reply, item, mime, folder, parentId);
            && p.ok
            && p.world.sent == w.sent + [ExportMedia(item.id, ExportFor(mime).value.0)]
            && Lookup(p.world.disk, folder + [item.name]).None?
            && NeedsDownload(item, StatOf(Lookup(p.world.disk, folder + [item.name]))) == Ok(true)
  {
    assert folder + [DownloadName(item.name, mime)] != folder + [item.name] by {
      assert (folder + [DownloadName(item.name, mime)])[|folder|] != (folder + [item.name])[|folder|];
    }
  }

  /** A plain file whose fetched content is at least the listed size is up to date
      afterwards: the next pass does not download it again. */
  lemma DownloadedFileIsCurrent(w: World, reply: (nat, Request) -> Reply, item: DriveItem, mime: string,
                                folder: Path, parentId: Option<int>)
    requires ExportFor(mime).None?
    requires var local := Lookup(w.disk, folder + [item.name]); !(local.Some? && local.value.Dir?)
    requires var answer := reply(|w.sent|, GetMedia(item.id)); answer.Content? && answer.size >= SizeOrZero(item)
    requires PullFileItem(w, reply, item, mime, folder, parentId).ok
    ensures var p := PullFileItem(w, reply, item, mime, folder, parentId);
            NeedsDownload(item, StatOf(Lookup(p.world.disk, folder + [item.name]))) == Ok(false)
  {
  }

  /** A failed fetch is not retried: the target was already opened for writing, so an
      empty file now stands at `folder / name`, stamped after any remote time not later
      than the disk clock, and the next pass finds nothing to download. */
  lemma FailedDownloadNotRetried(w: World, reply: (nat, Request) -> Reply, item: DriveItem, mime: string,
                                 folder: Path, parentId: Option<int>)
    requires ExportFor(mime).None?
    requires var local := Lookup(w.disk, folder + [item.name]); !(local.Some? && local.value.Dir?)
    requires NeedsDownload(item, StatOf(Lookup(w.disk, folder + [item.name]))) == Ok(true)
    requires !reply(|w.sent|, GetMedia(item.id)).Content?
    requires RemoteTime(item).Some? && RemoteTime(item).value <= w.disk.clock
    ensures var p := PullFileItem(w, reply, item, mime, folder, parentId);
            && p.ok && p.world.index == w.index
            && Lookup(p.world.disk, folder + [item.name]) == Some(File(Stat(0, w.disk.clock), EMPTY_DIGEST))
            && NeedsDownload(item, StatOf(Lookup(p.world.disk, folder + [item.name]))) == Ok(false)
  {
  }

  // ---------------------------------------------------------------------------------
  // The syncer.
  // ---------------------------------------------------------------------------------

  /** The remote-to-local syncer, holding the index, the local disk and the Drive service. */
  class DriveLocalSyncer {
    const db: DatabaseManager
    const disk: LocalDisk
    const service: DriveService

    constructor (db: DatabaseManager, disk: LocalDisk, service: DriveService)
      ensures this.db == db && this.disk == disk && this.service == service
    {
      this.db, this.disk, this.service := db, disk, service;
    }

    function Now(): World
      reads db, disk, service
    {
      World(db.State(), disk.State(), service.sent)
    }

    /** `sync_folder_structure`: walk the root listing with the top-level `parent_id=0`. */
    method SyncFolderStructure(listing: seq<RemoteNode>, localParent: Path) returns (ok: bool)
      modifies db, disk, service
      ensures Progress(Now(), ok) == PullFolder(old(Now()), service.reply, listing, localParent, Some(ROOT_PARENT))
      ensures Consistent(old(db.State())) ==> Consistent(db.State())
    {
      ghost var w0 := Now();
      ok := ProcessFolder(listing, localParent, Some(ROOT_PARENT));
      if Consistent(w0.index) {
        PullPassKeepsConsistent(w0, service.reply, listing, localParent);
      }
    }

    /** `_process_folder`: each listed item in turn; an escaping exception ends the walk. */
    method ProcessFolder(items: seq<RemoteNode>, localPath: Path, parentId: Option<int>) returns (ok: bool)
      modifies db, disk, service
      ensures Progress(Now(), ok) == PullFolder(old(Now()), service.reply, items, localPath, parentId)
      decreases items, 3
    {
      ghost var w0 := Now();
      var i := 0;
      while i < |items|
        invariant 0 <= i <= |items|
        invariant Progress(Now(), true) == PullFolder(w0, service.reply, items[..i], localPath, parentId)
      {
        ghost var before := Now();
        var node := items[i];
        var itemOk := true;
        if node.mimeType == FOLDER_MIME {
          itemOk := ProcessFolderItem(node, localPath, parentId);
        }
        if itemOk {
          itemOk := ProcessFileItem(node.item, node.mimeType, localPath, parentId);
        }
        assert items[..i + 1][..i] == items[..i];
        assert Progress(Now(), itemOk) == PullItem(before, service.reply, node, localPath, parentId);
        if !itemOk {
          PullAbortSticks(w0, service.reply, items, localPath, parentId, i + 1);
          return false;
        }
        i := i + 1;
      }
      assert items[..i] == items;
      ok := true;
    }

    /** `_process_folder_item`. */
    method ProcessFolderItem(node: RemoteNode, localPath: Path, parentId: Option<int>) returns (ok: bool)
      modifies db, disk, service
      ensures Progress(Now(), ok) == PullFolderItem(old(Now()), service.reply, node, localPath, parentId)
      decreases node, 1
    {
      var folderPath := localPath + [node.item.name];
      ok := disk.MkDir(folderPath);
      if !ok {
        return;
      }
      var dbFolder := db.UpdateFileRecord(node.item, folderPath, parentId, FolderKind, disk.Get(folderPath));
      if dbFolder.Err? {
        return false;
      }
      ok := ProcessFolder(node.children, folderPath, Some(dbFolder.value.id));
    }

    /** `_process_file_item`. */
    method ProcessFileItem(item: DriveItem, mime: string, localPath: Path, parentId: Option<int>)
      returns (ok: bool)
      modifies db, disk, service
      ensures Progress(Now(), ok) == PullFileItem(old(Now()), service.reply, item, mime, localPath, parentId)
    {
      var filePath := localPath + [item.name];
      var needed := NeedsDownload(item, StatOf(disk.Get(filePath)));
      if needed.Err? {
        return false;
      }
      if needed.value {
        DownloadFile(item, mime, localPath, parentId);
      }
      ok := true;
    }

    /** `_download_file`: every failure inside is caught and logged. */
    method DownloadFile(item: DriveItem, mime: string, localPath: Path, parentId: Option<int>)
      modifies db, disk, service
      ensures Now() == PullDownload(old(Now()), service.reply, item, mime, localPath, parentId)
    {
      var filePath := localPath + [DownloadName(item.name, mime)];
      var existing := disk.Get(filePath);
      if existing.Some? && existing.value.Dir? {
        return;
      }
      var answer := service.Call(DownloadRequest(item.id, mime));
      if !answer.Content? {
        disk.Write(filePath, 0, EMPTY_DIGEST);
        return;
      }
      disk.Write(filePath, answer.size, answer.digest);
      var _ := db.UpdateFileRecord(item, filePath, parentId, FileKind, disk.Get(filePath));
    }
  }
}
