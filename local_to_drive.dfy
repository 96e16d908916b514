/**
 * `LocalDriveSyncer`: the local-to-remote pass. It walks the local tree below the
 * configured root, finds or creates a Drive folder for every directory, uploads files the
 * index does not know and re-uploads known files the change detector calls stale.
 * Every failure is caught at the folder or file it happened in.
 *
 * The pass is specified by the `Push*` functions on a `PushState` value; the methods of
 * the class change the index and the request log exactly as those say.
 */
module LocalToDrive {
  import opened Wrappers
  import opened Errors
  import opened LocalFs
  import opened Remote
  import opened Records
  import opened Database
  import DriveToLocal

  /** What `iterdir()` and `stat()` show below a directory while the pass runs. */
  datatype LocalEntry =
    | LocalDir(name: string, stat: Stat, entries: seq<LocalEntry>)
    | LocalFile(name: string, stat: Stat, digest: string)

  /** `_needs_update` of the upload direction: the file's `stat()` against the sizes and
      times stored in its row, not a fresh Drive query. Err is the TypeError of comparing
      with a NULL column. */
  function NeedsUpload(rec: FileRecord, local: Stat): (r: Result<bool, Error>)
    ensures rec.fields.fileSize.None? ==> r == Err(TypeError)
    // a stored size not below the local one never triggers an upload
    ensures rec.fields.fileSize.Some? && rec.fields.fileSize.value >= local.size ==> r == Ok(false)
    // a larger local file is uploaded exactly when it is strictly newer than the stored remote time
    ensures rec.fields.fileSize.Some? && rec.fields.fileSize.value < local.size ==>
              && (r.Err? <==> rec.fields.lastModifiedRemote.None?)
              && (r.Ok? ==> r.value == (local.mtime > rec.fields.lastModifiedRemote.value))
  {
    match rec.fields.fileSize
    case None => Err(TypeError)
    case Some(remoteSize) =>
      if remoteSize >= local.size then Ok(false)
      else
        match rec.fields.lastModifiedRemote
        case None => Err(TypeError)
        case Some(remoteMtime) => Ok(local.mtime > remoteMtime)
  }

  /** The two change detectors never send one file both ways: when the row records the
      size Drive lists, at most one of them fires, and with equal sizes neither does. */
  lemma DetectorsNeverBothFire(item: DriveItem, rec: FileRecord, local: Stat)
    requires rec.fields.fileSize == Some(SizeOrZero(item))
    ensures !(DriveToLocal.NeedsDownload(item, Some(local)) == Ok(true) && NeedsUpload(rec, local) == Ok(true))
    ensures SizeOrZero(item) == local.size ==>
              DriveToLocal.NeedsDownload(item, Some(local)) == Ok(false) && NeedsUpload(rec, local) == Ok(false)
  {
  }

  /** What the pass acts on: the index and the Drive request log. */
  datatype PushState = PushState(index: IndexState, sent: seq<Request>)

  /** `parent_record.id if parent_record else None`. */
  function ParentRef(parent: Option<FileRecord>): (r: Option<int>)
    ensures r.Some? <==> parent.Some?
    ensures r.Some? ==> r.value == parent.value.id
  {
    if parent.Some? then Some(parent.value.id) else None
  }

  /** `remote_parent_id or "root"`. */
  function RemoteParentOrRoot(remoteParentId: Option<string>): (r: string)
    ensures remoteParentId.None? || remoteParentId.value == "" ==> r == "root"
    ensures remoteParentId.Some? && remoteParentId.value != "" ==> r == remoteParentId.value
  {
    if remoteParentId.None? || remoteParentId.value == "" then "root" else remoteParentId.value
  }

  /** Number of folder creations in a request log. */
  function CreatedFolders(log: seq<Request>): nat
  {
    if log == [] then 0
    else CreatedFolders(log[..|log| - 1]) + (if log[|log| - 1].CreateFolder? then 1 else 0)
  }

  /** `_update_folder_record`: fetch the created folder and upsert it under the row of the
      local parent directory, or under no parent when that directory has no row. */
  function PushFolderRecord(s: PushState, reply: (nat, Request) -> Reply, path: Path, stat: Stat,
                            remoteId: string): (r: (PushState, Result<FileRecord, Error>))
    ensures r.0.sent == s.sent + [GetItem(remoteId)]
    ensures r.1.Ok? ==> && r.1.value in r.0.index.files
                        && r.1.value.fields.kind == FolderKind
                        && r.1.value.fields.localPath == path
                        && r.1.value.fields.parentId == ParentRef(FindFile(s.index.files, ByLocalPath(Parent(path))))
    // the row is the fetched folder; a failed fetch or upsert leaves the index alone
    ensures var answer := reply(|s.sent|, GetItem(remoteId));
            && (r.1.Ok? ==> answer.Resource? && r.1.value.fields.remoteId == answer.id)
            && (r.1.Err? ==> r.0.index == s.index)
            && ((answer.Resource? && forall rec :: rec in s.index.files && rec.fields.localPath == path ==>
                                                   rec.fields.remoteId == answer.id)
                ==> r.1.Ok?)
  {
    var parent := FindFile(s.index.files, ByLocalPath(Parent(path)));
    var req := GetItem(remoteId);
    var answer := reply(|s.sent|, req);
    if !answer.Resource? then (PushState(s.index, s.sent + [req]), Err(HttpError))
    else
      var (index, rec) := UpsertItem(s.index, AsItem(answer), path, ParentRef(parent), FolderKind, Some(Dir(stat)));
      (PushState(index, s.sent + [req]), rec)
  }

  /** `_get_or_create_folder`: an indexed directory is returned as it is and nothing is
      created; otherwise exactly one Drive folder is created and recorded. */
  function PushGetOrCreateFolder(s: PushState, reply: (nat, Request) -> Reply, path: Path, stat: Stat,
                                 remoteParent: string): (r: (PushState, Result<FileRecord, Error>))
    ensures FindFile(s.index.files, ByLocalPath(path)).Some? ==>
              r == (s, Ok(FindFile(s.index.files, ByLocalPath(path)).value))
    ensures FindFile(s.index.files, ByLocalPath(path)).None? ==>
              && |s.sent| < |r.0.sent| <= |s.sent| + 2
              && r.0.sent[..|s.sent| + 1] == s.sent + [CreateFolder(Name(path), remoteParent)]
              && CreatedFolders(r.0.sent) == CreatedFolders(s.sent) + 1
    // the folder returned is the row at `path`
    ensures r.1.Ok? ==> r.1.value in r.0.index.files && r.1.value.fields.localPath == path
    // a created folder is recorded as a folder under the local parent's row, and is recorded
    // whenever both the create and the fetch are answered; a failure records nothing
    ensures FindFile(s.index.files, ByLocalPath(path)).None? ==>
              var created := reply(|s.sent|, CreateFolder(Name(path), remoteParent));
              && (r.1.Ok? ==> && r.1.value.fields.kind == FolderKind
                              && r.1.value.fields.parentId == ParentRef(FindFile(s.index.files, ByLocalPath(Parent(path))))
                              && created.Resource?)
              && (r.1.Err? ==> r.0.index == s.index)
              && (created.Resource? && reply(|s.sent| + 1, GetItem(created.id)).Resource? ==> r.1.Ok?)
  {
    match FindFile(s.index.files, ByLocalPath(path))
    case Some(rec) => (s, Ok(rec))
    case None =>
      var req := CreateFolder(Name(path), remoteParent);
      var answer := reply(|s.sent|, req);
      var s1 := PushState(s.index, s.sent + [req]);
      if !answer.Resource? then (s1, Err(HttpError))
      else
        var r := PushFolderRecord(s1, reply, path, stat, answer.id);
        assert r.0.sent == s1.sent + [GetItem(answer.id)];
        assert r.0.sent[..|s.sent| + 1] == s1.sent;
        r
  }

  /** `_update_existing_file`: re-upload and re-record only when the change detector says
      so; the row keeps its stored `parent_id`. */
  function PushExistingFile(s: PushState, reply: (nat, Request) -> Reply, rec: FileRecord, path: Path,
                            node: Node): (r: PushState)
    ensures NeedsUpload(rec, node.stat) != Ok(true) ==> r == s
    ensures NeedsUpload(rec, node.stat) == Ok(true) ==> r.sent == s.sent + [UpdateFile(rec.fields.remoteId)]
    // a failed upload records nothing
    ensures !reply(|s.sent|, UpdateFile(rec.fields.remoteId)).Resource? ==> r.index == s.index
    // an answered upload of a file is recorded under the stored parent, with `file_size` 0
    // (the update response carries no size) and the local size and digest
    ensures var answer := reply(|s.sent|, UpdateFile(rec.fields.remoteId));
            NeedsUpload(rec, node.stat) == Ok(true) && answer.Resource? && node.File? &&
            (forall other :: other in s.index.files && other.fields.localPath == path ==>
                               other.fields.remoteId == answer.id) ==>
              exists row :: && row in r.index.files && row.fields.remoteId == answer.id
                            && row.fields.localPath == path && row.fields.kind == FileKind
                            && row.fields.parentId == rec.fields.parentId
                            && row.fields.fileSize == Some(0) && row.fields.localSize == Some(node.stat.size)
                            && row.fields.checksum == Some(node.digest)
  {
    if NeedsUpload(rec, node.stat) != Ok(true) then s
    else
      var req := UpdateFile(rec.fields.remoteId);
      var answer := reply(|s.sent|, req);
      if !answer.Resource? then PushState(s.index, s.sent + [req])
      else
        var (index, written) := UpsertItem(s.index, AsItem(answer), path, rec.fields.parentId, FileKind, Some(node));
        assert written.Ok? ==> written.value in index.files;
        PushState(index, s.sent + [req])
  }

  /** `_upload_new_file` and `_update_new_file_record`: create the Drive file under the
      current remote folder, then record it under the row of the local parent directory. */
  function PushNewFile(s: PushState, reply: (nat, Request) -> Reply, path: Path, node: Node,
                       remoteParent: string): (r: PushState)
    ensures r.sent == s.sent + [CreateFile(Name(path), remoteParent)]
    // a failed upload records nothing
    ensures !reply(|s.sent|, CreateFile(Name(path), remoteParent)).Resource? ==> r.index == s.index
    // an answered upload of a file is recorded under the local parent's row, with
    // `file_size` 0 (the create response carries no size) and the local size and digest
    ensures var answer := reply(|s.sent|, CreateFile(Name(path), remoteParent));
            answer.Resource? && node.File? &&
            (forall other :: other in s.index.files && other.fields.localPath == path ==>
                               other.fields.remoteId == answer.id) ==>
              exists row :: && row in r.index.files && row.fields.remoteId == answer.id
                            && row.fields.localPath == path && row.fields.kind == FileKind
                            && row.fields.parentId == ParentRef(FindFile(s.index.files, ByLocalPath(Parent(path))))
                            && row.fields.fileSize == Some(0) && row.fields.localSize == Some(node.stat.size)
                            && row.fields.checksum == Some(node.digest)
  {
    var req := CreateFile(Name(path), remoteParent);
    var answer := reply(|s.sent|, req);
    if !answer.Resource? then PushState(s.index, s.sent + [req])
    else
      var parent := FindFile(s.index.files, ByLocalPath(Parent(path)));
      var (index, written) := UpsertItem(s.index, AsItem(answer), path, ParentRef(parent), FileKind, Some(node));
      assert written.Ok? ==> written.value in index.files;
      PushState(index, s.sent + [req])
  }

  /** `_sync_local_file`: a file without a row is uploaded as new, one with a row is
      checked for staleness. */
  function PushFile(s: PushState, reply: (nat, Request) -> Reply, path: Path, node: Node,
                    remoteParent: string): (r: PushState)
    // the local-to-remote walk only appends to the log, and never downloads from Drive
    ensures s.sent <= r.sent && forall i :: |s.sent| <= i < |r.sent| ==> !Fetches(r.sent[i])
  {
    match FindFile(s.index.files, ByLocalPath(path))
    case Some(rec) => PushExistingFile(s, reply, rec, path, node)
    case None => PushNewFile(s, reply, path, node, remoteParent)
  }

  /** `_sync_local_folder`: any directory but the configured root gets its Drive folder
      (found or created) and its children go under that folder's id; the root's children go
      under the remote parent directly. A failure ends only this folder. */
  function PushFolder(s: PushState, reply: (nat, Request) -> Reply, root: Path, path: Path, stat: Stat,
                      entries: seq<LocalEntry>, remoteParent: string): (r: PushState)
    // the local-to-remote walk only appends to the log, and never downloads from Drive
    ensures s.sent <= r.sent && forall i :: |s.sent| <= i < |r.sent| ==> !Fetches(r.sent[i])
    decreases entries, 2
  {
    if path != root then
      var (s1, folder) := PushGetOrCreateFolder(s, reply, path, stat, remoteParent);
      if folder.Err? then s1
      else PushItems(s1, reply, root, path, entries, folder.value.fields.remoteId)
    else
      PushItems(s, reply, root, path, entries, remoteParent)
  }

  /** `_process_folder_items`: every entry once, directories recursing, everything else to
      the file handler. */
  function PushItems(s: PushState, reply: (nat, Request) -> Reply, root: Path, folder: Path,
                     entries: seq<LocalEntry>, remoteFolderId: string): (r: PushState)
    // the local-to-remote walk only appends to the log, and never downloads from Drive
    ensures s.sent <= r.sent && forall i :: |s.sent| <= i < |r.sent| ==> !Fetches(r.sent[i])
    decreases entries, 1
  {
    if entries == [] then s
    else
      var s1 := PushItems(s, reply, root, folder, entries[..|entries| - 1], remoteFolderId);
      PushEntry(s1, reply, root, folder, entries[|entries| - 1], remoteFolderId)
  }

  function PushEntry(s: PushState, reply: (nat, Request) -> Reply, root: Path, folder: Path,
                     entry: LocalEntry, remoteFolderId: string): (r: PushState)
    // the local-to-remote walk only appends to the log, and never downloads from Drive
    ensures s.sent <= r.sent && forall i :: |s.sent| <= i < |r.sent| ==> !Fetches(r.sent[i])
    decreases entry, 0
  {
    match entry
    case LocalDir(name, stat, children) =>
      PushFolder(s, reply, root, folder + [name], stat, children, remoteFolderId)
    case LocalFile(name, stat, digest) =>
      PushFile(s, reply, folder + [name], File(stat, digest), remoteFolderId)
  }

  /** `sync_local_to_drive`: walk `start` under `remote_parent_id or "root"`. Whether a
      directory gets a Drive folder of its own is decided against the configured root
      `LOCAL_FOLDER`, not against `start`. */
  function PushPass(s: PushState, reply: (nat, Request) -> Reply, root: Path, start: Path, startStat: Stat,
                    entries: seq<LocalEntry>, remoteParentId: Option<string>): (r: PushState)
    // the local-to-remote walk only appends to the log, and never downloads from Drive
    ensures s.sent <= r.sent && forall i :: |s.sent| <= i < |r.sent| ==> !Fetches(r.sent[i])
  {
    PushFolder(s, reply, root, start, startStat, entries, RemoteParentOrRoot(remoteParentId))
  }

  // ---------------------------------------------------------------------------------
  // The index stays consistent.
  // ---------------------------------------------------------------------------------

  lemma RecordIdKnown(files: seq<FileRecord>, rec: FileRecord)
    requires rec in files
    ensures rec.id as int in Ids(files)
    ensures ParentsKnown(files) ==> ParentKnown(files, rec.fields.parentId)
  {
    var k :| 0 <= k < |files| && files[k] == rec;
  }

  /** The parent reference of both upload paths is absent or a row of the index. */
  lemma ParentRefKnown(files: seq<FileRecord>, parent: Option<FileRecord>)
    requires parent.Some? ==> parent.value in files
    ensures ParentKnown(files, ParentRef(parent))
  {
    if parent.Some? {
      RecordIdKnown(files, parent.value);
    }
  }

  lemma PushFolderRecordKeepsConsistent(s: PushState, reply: (nat, Request) -> Reply, path: Path, stat: Stat,
                                        remoteId: string)
    requires Consistent(s.index)
    ensures var r := PushFolderRecord(s, reply, path, stat, remoteId);
            Consistent(r.0.index) && Ids(s.index.files) <= Ids(r.0.index.files)
  {
    var parent := FindFile(s.index.files, ByLocalPath(Parent(path)));
    var answer := reply(|s.sent|, GetItem(remoteId));
    if answer.Resource? {
      ParentRefKnown(s.index.files, parent);
      UpsertItemKeepsConsistent(s.index, AsItem(answer), path, ParentRef(parent), FolderKind, Some(Dir(stat)));
    }
  }

  lemma PushFileKeepsConsistent(s: PushState, reply: (nat, Request) -> Reply, path: Path, node: Node,
                                remoteParent: string)
    requires Consistent(s.index)
    ensures var r := PushFile(s, reply, path, node, remoteParent);
            Consistent(r.index) && Ids(s.index.files) <= Ids(r.index.files)
  {
    var found := FindFile(s.index.files, ByLocalPath(path));
    if found.Some? {
      var rec := found.value;
      var answer := reply(|s.sent|, UpdateFile(rec.fields.remoteId));
      if NeedsUpload(rec, node.stat) == Ok(true) && answer.Resource? {
        RecordIdKnown(s.index.files, rec);
        UpsertItemKeepsConsistent(s.index, AsItem(answer), path, rec.fields.parentId, FileKind, Some(node));
      }
    } else {
      var answer := reply(|s.sent|, CreateFile(Name(path), remoteParent));
      if answer.Resource? {
        var parent := FindFile(s.index.files, ByLocalPath(Parent(path)));
        ParentRefKnown(s.index.files, parent);
        UpsertItemKeepsConsistent(s.index, AsItem(answer), path, ParentRef(parent), FileKind, Some(node));
      }
    }
  }

  /** Every row the pass writes keeps the table constraints, and its `parent_id` is absent
      or the id of a row already there: no id is ever lost. */
  lemma {:induction false} PushFolderKeepsConsistent(s: PushState, reply: (nat, Request) -> Reply, root: Path,
                                                     path: Path, stat: Stat, entries: seq<LocalEntry>,
                                                     remoteParent: string)
    requires Consistent(s.index)
    ensures var r := PushFolder(s, reply, root, path, stat, entries, remoteParent);
            Consistent(r.index) && Ids(s.index.files) <= Ids(r.index.files)
    decreases entries, 2
  {
    if path != root {
      var found := FindFile(s.index.files, ByLocalPath(path));
      if found.None? {
        var answer := reply(|s.sent|, CreateFolder(Name(path), remoteParent));
        if answer.Resource? {
          var s1 := PushState(s.index, s.sent + [CreateFolder(Name(path), remoteParent)]);
          PushFolderRecordKeepsConsistent(s1, reply, path, stat, answer.id);
        }
      }
      var (s1, folder) := PushGetOrCreateFolder(s, reply, path, stat, remoteParent);
      if folder.Ok? {
        PushItemsKeepsConsistent(s1, reply, root, path, entries, folder.value.fields.remoteId);
      }
    } else {
      PushItemsKeepsConsistent(s, reply, root, path, entries, remoteParent);
    }
  }

  lemma {:induction false} PushItemsKeepsConsistent(s: PushState, reply: (nat, Request) -> Reply, root: Path,
                                                    folder: Path, entries: seq<LocalEntry>, remoteFolderId: string)
    requires Consistent(s.index)
    ensures var r := PushItems(s, reply, root, folder, entries, remoteFolderId);
            Consistent(r.index) && Ids(s.index.files) <= Ids(r.index.files)
    decreases entries, 1
  {
    if entries != [] {
      var prefix := entries[..|entries| - 1];
      PushItemsKeepsConsistent(s, reply, root, folder, prefix, remoteFolderId);
      var s1 := PushItems(s, reply, root, folder, prefix, remoteFolderId);
      PushEntryKeepsConsistent(s1, reply, root, folder, entries[|entries| - 1], remoteFolderId);
    }
  }

  lemma {:induction false} PushEntryKeepsConsistent(s: PushState, reply: (nat, Request) -> Reply, root: Path,
                                                    folder: Path, entry: LocalEntry, remoteFolderId: string)
    requires Consistent(s.index)
    ensures var r := PushEntry(s, reply, root, folder, entry, remoteFolderId);
            Consistent(r.index) && Ids(s.index.files) <= Ids(r.index.files)
    decreases entry, 0
  {
    match entry
    case LocalDir(name, stat, children) =>
      PushFolderKeepsConsistent(s, reply, root, folder + [name], stat, children, remoteFolderId);
    case LocalFile(name, stat, digest) =>
      PushFileKeepsConsistent(s, reply, folder + [name], File(stat, digest), remoteFolderId);
  }

  /** The whole pass keeps the index consistent. */
  lemma PushPassKeepsConsistent(s: PushState, reply: (nat, Request) -> Reply, root: Path, start: Path,
                                startStat: Stat, entries: seq<LocalEntry>, remoteParentId: Option<string>)
    requires Consistent(s.index)
    ensures Consistent(PushPass(s, reply, root, start, startStat, entries, remoteParentId).index)
  {
    PushFolderKeepsConsistent(s, reply, root, start, startStat, entries, RemoteParentOrRoot(remoteParentId));
  }

  // ---------------------------------------------------------------------------------
  // Rows are written only for paths inside the folder being walked.
  // ---------------------------------------------------------------------------------

  /** Every row of `s'` was already in `s` or is for `folder` itself or a path below it. */
  ghost predicate WritesWithin(s: IndexState, s': IndexState, folder: Path, self: bool)
  {
    forall rec :: rec in s'.files ==>
      rec in s.files || Below(folder, rec.fields.localPath) || (self && rec.fields.localPath == folder)
  }

  lemma WritesWithinChain(s: IndexState, s1: IndexState, s2: IndexState, folder: Path, self: bool)
    requires WritesWithin(s, s1, folder, self) && WritesWithin(s1, s2, folder, self)
    ensures WritesWithin(s, s2, folder, self)
  {
  }

  /** Writes inside a child are writes inside its parent, not at the parent itself. */
  lemma WritesWithinWidens(s: IndexState, s': IndexState, folder: Path, name: string, self: bool)
    requires WritesWithin(s, s', folder + [name], self)
    ensures WritesWithin(s, s', folder, false)
  {
    ChildIsBelow(folder, name);
    forall rec | rec in s'.files && rec !in s.files
      ensures Below(folder, rec.fields.localPath)
    {
      if Below(folder + [name], rec.fields.localPath) {
        BelowTransitive(folder, folder + [name], rec.fields.localPath);
      }
    }
  }

  lemma UpsertWritesAt(s: IndexState, item: DriveItem, path: Path, parentId: Option<int>, kind: Kind,
                       local: Option<Node>)
    ensures WritesWithin(s, UpsertItem(s, item, path, parentId, kind, local).0, path, true)
  {
    UpsertItemKeepsOthers(s, item, path, parentId, kind, local);
  }

  lemma PushFileWritesAt(s: PushState, reply: (nat, Request) -> Reply, path: Path, node: Node,
                         remoteParent: string)
    ensures WritesWithin(s.index, PushFile(s, reply, path, node, remoteParent).index, path, true)
  {
    var found := FindFile(s.index.files, ByLocalPath(path));
    if found.Some? {
      var answer := reply(|s.sent|, UpdateFile(found.value.fields.remoteId));
      if NeedsUpload(found.value, node.stat) == Ok(true) && answer.Resource? {
        UpsertWritesAt(s.index, AsItem(answer), path, found.value.fields.parentId, FileKind, Some(node));
      }
    } else {
      var answer := reply(|s.sent|, CreateFile(Name(path), remoteParent));
      if answer.Resource? {
        var parent := FindFile(s.index.files, ByLocalPath(Parent(path)));
        UpsertWritesAt(s.index, AsItem(answer), path, ParentRef(parent), FileKind, Some(node));
      }
    }
  }

  lemma PushGetOrCreateFolderWritesAt(s: PushState, reply: (nat, Request) -> Reply, path: Path, stat: Stat,
                                      remoteParent: string)
    ensures WritesWithin(s.index, PushGetOrCreateFolder(s, reply, path, stat, remoteParent).0.index, path, true)
  {
    if FindFile(s.index.files, ByLocalPath(path)).None? {
      var answer := reply(|s.sent|, CreateFolder(Name(path), remoteParent));
      if answer.Resource? {
        var s1 := PushState(s.index, s.sent + [CreateFolder(Name(path), remoteParent)]);
        var parent := FindFile(s.index.files, ByLocalPath(Parent(path)));
        var folderAnswer := reply(|s1.sent|, GetItem(answer.id));
        if folderAnswer.Resource? {
          UpsertWritesAt(s.index, AsItem(folderAnswer), path, ParentRef(parent), FolderKind, Some(Dir(stat)));
        }
      }
    }
  }

  /** A directory's walk writes rows only for that directory (unless it is the configured
      root) and for paths below it. */
  lemma {:induction false} PushFolderWritesWithin(s: PushState, reply: (nat, Request) -> Reply, root: Path,
                                                  path: Path, stat: Stat, entries: seq<LocalEntry>,
                                                  remoteParent: string)
    ensures WritesWithin(s.index, PushFolder(s, reply, root, path, stat, entries, remoteParent).index,
                         path, path != root)
    decreases entries, 2
  {
    if path != root {
      PushGetOrCreateFolderWritesAt(s, reply, path, stat, remoteParent);
      var (s1, folder) := PushGetOrCreateFolder(s, reply, path, stat, remoteParent);
      if folder.Ok? {
        var id := folder.value.fields.remoteId;
        PushItemsWritesWithin(s1, reply, root, path, entries, id);
        WritesWithinChain(s.index, s1.index, PushItems(s1, reply, root, path, entries, id).index, path, true);
      }
    } else {
      PushItemsWritesWithin(s, reply, root, path, entries, remoteParent);
    }
  }

  lemma {:induction false} PushItemsWritesWithin(s: PushState, reply: (nat, Request) -> Reply, root: Path,
                                                 folder: Path, entries: seq<LocalEntry>, remoteFolderId: string)
    ensures WritesWithin(s.index, PushItems(s, reply, root, folder, entries, remoteFolderId).index, folder, false)
    decreases entries, 1
  {
    if entries != [] {
      var prefix := entries[..|entries| - 1];
      PushItemsWritesWithin(s, reply, root, folder, prefix, remoteFolderId);
      var s1 := PushItems(s, reply, root, folder, prefix, remoteFolderId);
      PushEntryWritesWithin(s1, reply, root, folder, entries[|entries| - 1], remoteFolderId);
    }
  }

  lemma {:induction false} PushEntryWritesWithin(s: PushState, reply: (nat, Request) -> Reply, root: Path,
                                                 folder: Path, entry: LocalEntry, remoteFolderId: string)
    ensures WritesWithin(s.index, PushEntry(s, reply, root, folder, entry, remoteFolderId).index, folder, false)
    decreases entry, 0
  {
    match entry
    case LocalDir(name, stat, children) =>
      PushFolderWritesWithin(s, reply, root, folder + [name], stat, children, remoteFolderId);
      WritesWithinWidens(s.index, PushEntry(s, reply, root, folder, entry, remoteFolderId).index,
                         folder, name, folder + [name] != root);
    case LocalFile(name, stat, digest) =>
      PushFileWritesAt(s, reply, folder + [name], File(stat, digest), remoteFolderId);
      WritesWithinWidens(s.index, PushEntry(s, reply, root, folder, entry, remoteFolderId).index,
                         folder, name, true);
  }

  // ---------------------------------------------------------------------------------
  // Where the walk puts things in Drive.
  // ---------------------------------------------------------------------------------

  /** A directory's walk places its own Drive folder under `remoteParent`, and everything
      inside it under the Drive id of the row get-or-create returned for it, which is the
      row at `path`; the configured root has no Drive folder of its own, so its entries go
      under `remoteParent` directly. */
  ghost predicate FolderPlaced(s: PushState, reply: (nat, Request) -> Reply, root: Path, path: Path, stat: Stat,
                               entries: seq<LocalEntry>, remoteParent: string)
    decreases entries, 2
  {
    if path == root then ItemsPlaced(s, reply, root, path, entries, remoteParent)
    else
      var (s1, folder) := PushGetOrCreateFolder(s, reply, path, stat, remoteParent);
      && (forall i | |s.sent| <= i < |s1.sent| ::
            s1.sent[i] == CreateFolder(Name(path), remoteParent) || s1.sent[i].GetItem?)
      && (folder.Ok? ==> && folder.value in s1.index.files && folder.value.fields.localPath == path
                         && ItemsPlaced(s1, reply, root, path, entries, folder.value.fields.remoteId))
  }

  /** Each entry of `folder`, handled in turn, is placed under `remoteFolderId`. */
  ghost predicate ItemsPlaced(s: PushState, reply: (nat, Request) -> Reply, root: Path, folder: Path,
                              entries: seq<LocalEntry>, remoteFolderId: string)
    decreases entries, 1
  {
    forall k | 0 <= k < |entries| ::
      EntryPlaced(PushItems(s, reply, root, folder, entries[..k], remoteFolderId), reply, root, folder,
                  entries[k], remoteFolderId)
  }

  /** A file of `folder` is created under `remoteFolderId` or updated in place; a directory
      of `folder` is placed as `FolderPlaced` says, with `remoteFolderId` as its Drive parent. */
  ghost predicate EntryPlaced(s: PushState, reply: (nat, Request) -> Reply, root: Path, folder: Path,
                              entry: LocalEntry, remoteFolderId: string)
    decreases entry, 0
  {
    match entry
    case LocalDir(name, stat, children) =>
      FolderPlaced(s, reply, root, folder + [name], stat, children, remoteFolderId)
    case LocalFile(name, stat, digest) =>
      var r := PushFile(s, reply, folder + [name], File(stat, digest), remoteFolderId);
      forall i | |s.sent| <= i < |r.sent| :: r.sent[i] == CreateFile(name, remoteFolderId) || r.sent[i].UpdateFile?
  }

  /** Get-or-create sends at most the folder create, under the given Drive parent, and the
      fetch of the created folder. */
  lemma GetOrCreateFolderSends(s: PushState, reply: (nat, Request) -> Reply, path: Path, stat: Stat,
                               remoteParent: string)
    ensures var s1 := PushGetOrCreateFolder(s, reply, path, stat, remoteParent).0;
            forall i | |s.sent| <= i < |s1.sent| ::
              s1.sent[i] == CreateFolder(Name(path), remoteParent) || s1.sent[i].GetItem?
  {
    if FindFile(s.index.files, ByLocalPath(path)).None? {
      var req := CreateFolder(Name(path), remoteParent);
      var answer := reply(|s.sent|, req);
      if answer.Resource? {
        var s1 := PushState(s.index, s.sent + [req]);
        assert PushGetOrCreateFolder(s, reply, path, stat, remoteParent)
               == PushFolderRecord(s1, reply, path, stat, answer.id);
      }
    }
  }

  /** `_sync_local_folder` passes the Drive id of the directory's own row on to its entries,
      recursively: every folder and file the walk creates in Drive names the Drive folder of
      its local parent directory. */
  lemma {:induction false} PushFolderPlaced(s: PushState, reply: (nat, Request) -> Reply, root: Path, path: Path,
                                            stat: Stat, entries: seq<LocalEntry>, remoteParent: string)
    ensures FolderPlaced(s, reply, root, path, stat, entries, remoteParent)
    decreases entries, 2
  {
    if path == root {
      PushItemsPlaced(s, reply, root, path, entries, remoteParent);
    } else {
      GetOrCreateFolderSends(s, reply, path, stat, remoteParent);
      var (s1, folder) := PushGetOrCreateFolder(s, reply, path, stat, remoteParent);
      if folder.Ok? {
        PushItemsPlaced(s1, reply, root, path, entries, folder.value.fields.remoteId);
      }
    }
  }

  lemma {:induction false} PushItemsPlaced(s: PushState, reply: (nat, Request) -> Reply, root: Path,
                                           folder: Path, entries: seq<LocalEntry>, remoteFolderId: string)
    ensures ItemsPlaced(s, reply, root, folder, entries, remoteFolderId)
    decreases entries, 1
  {
    forall k | 0 <= k < |entries|
      ensures EntryPlaced(PushItems(s, reply, root, folder, entries[..k], remoteFolderId), reply, root, folder,
                          entries[k], remoteFolderId)
    {
      PushEntryPlaced(PushItems(s, reply, root, folder, entries[..k], remoteFolderId), reply, root, folder,
                      entries[k], remoteFolderId);
    }
  }

  lemma {:induction false} PushEntryPlaced(s: PushState, reply: (nat, Request) -> Reply, root: Path,
                                           folder: Path, entry: LocalEntry, remoteFolderId: string)
    ensures EntryPlaced(s, reply, root, folder, entry, remoteFolderId)
    decreases entry, 0
  {
    match entry
    case LocalDir(name, stat, children) =>
      PushFolderPlaced(s, reply, root, folder + [name], stat, children, remoteFolderId);
    case LocalFile(name, stat, digest) =>
      assert Name(folder + [name]) == name;
  }

  /** Started at the configured root, the pass never writes a row for the root itself, so
      the directories and files directly inside it are recorded with no `parent_id` (the
      remote-to-local pass gives them 0). */
  lemma PushPassNeverIndexesRoot(s: PushState, reply: (nat, Request) -> Reply, root: Path, rootStat: Stat,
                                 entries: seq<LocalEntry>, remoteParentId: Option<string>)
    requires forall rec :: rec in s.index.files ==> rec.fields.localPath != root
    ensures var r := PushPass(s, reply, root, root, rootStat, entries, remoteParentId);
            // the root's children go straight under the remote parent, "root" by default
            && r == PushItems(s, reply, root, root, entries, RemoteParentOrRoot(remoteParentId))
            && (forall rec :: rec in r.index.files ==> rec.fields.localPath != root)
            && (forall rec :: rec in r.index.files && rec !in s.index.files ==> Below(root, rec.fields.localPath))
  {
    PushFolderWritesWithin(s, reply, root, root, rootStat, entries, RemoteParentOrRoot(remoteParentId));
  }

  /** Directly inside an unindexed root, the parent lookup of both upload paths finds
      nothing: the row gets no `parent_id` at all. */
  lemma TopLevelParentIsNone(files: seq<FileRecord>, root: Path, name: string)
    requires forall rec :: rec in files ==> rec.fields.localPath != root
    ensures ParentRef(FindFile(files, ByLocalPath(Parent(root + [name])))) == None
  {
    var p := Parent(root + [name]);
    assert p + [Name(root + [name])] == root + [name];
    assert p == (root + [name])[..|root|];
    assert p == root;
  }

  // ---------------------------------------------------------------------------------
  // At most one Drive folder per local directory.
  // ---------------------------------------------------------------------------------

  /** Number of directories in a local tree, the listed ones and all below them. */
  function DirCount(entries: seq<LocalEntry>): nat
    decreases entries, 1
  {
    if entries == [] then 0
    else DirCount(entries[..|entries| - 1]) + EntryDirCount(entries[|entries| - 1])
  }

  function EntryDirCount(entry: LocalEntry): nat
    decreases entry, 0
  {
    match entry
    case LocalDir(_, _, children) => 1 + DirCount(children)
    case LocalFile(_, _, _) => 0
  }

  lemma CreatedFoldersAppend(log: seq<Request>, req: Request)
    ensures CreatedFolders(log + [req]) == CreatedFolders(log) + (if req.CreateFolder? then 1 else 0)
  {
    assert (log + [req])[..|log|] == log;
  }

  lemma PushFileCreatesNoFolder(s: PushState, reply: (nat, Request) -> Reply, path: Path, node: Node,
                                remoteParent: string)
    ensures var r := PushFile(s, reply, path, node, remoteParent);
            s.sent <= r.sent && CreatedFolders(r.sent) == CreatedFolders(s.sent)
  {
    var found := FindFile(s.index.files, ByLocalPath(path));
    if found.Some? {
      CreatedFoldersAppend(s.sent, UpdateFile(found.value.fields.remoteId));
    } else {
      CreatedFoldersAppend(s.sent, CreateFile(Name(path), remoteParent));
    }
  }

  lemma PushGetOrCreateFolderCreatesOne(s: PushState, reply: (nat, Request) -> Reply, path: Path, stat: Stat,
                                        remoteParent: string)
    ensures var r := PushGetOrCreateFolder(s, reply, path, stat, remoteParent);
            s.sent <= r.0.sent && CreatedFolders(r.0.sent) <= CreatedFolders(s.sent) + 1
  {
    if FindFile(s.index.files, ByLocalPath(path)).None? {
      var req := CreateFolder(Name(path), remoteParent);
      CreatedFoldersAppend(s.sent, req);
      var answer := reply(|s.sent|, req);
      if answer.Resource? {
        CreatedFoldersAppend(s.sent + [req], GetItem(answer.id));
      }
    }
  }

  /** A pass over a local tree creates at most one Drive folder per local directory in
      it, and none for the configured root; it only appends to the request log. */
  lemma {:induction false} PushFolderCreatesAtMost(s: PushState, reply: (nat, Request) -> Reply, root: Path,
                                                   path: Path, stat: Stat, entries: seq<LocalEntry>,
                                                   remoteParent: string)
    ensures var r := PushFolder(s, reply, root, path, stat, entries, remoteParent);
            && s.sent <= r.sent
            && CreatedFolders(r.sent) <= CreatedFolders(s.sent) + (if path != root then 1 else 0) + DirCount(entries)
    decreases entries, 2
  {
    if path != root {
      PushGetOrCreateFolderCreatesOne(s, reply, path, stat, remoteParent);
      var (s1, folder) := PushGetOrCreateFolder(s, reply, path, stat, remoteParent);
      if folder.Ok? {
        PushItemsCreatesAtMost(s1, reply, root, path, entries, folder.value.fields.remoteId);
      }
    } else {
      PushItemsCreatesAtMost(s, reply, root, path, entries, remoteParent);
    }
  }

  lemma {:induction false} PushItemsCreatesAtMost(s: PushState, reply: (nat, Request) -> Reply, root: Path,
                                                  folder: Path, entries: seq<LocalEntry>, remoteFolderId: string)
    ensures var r := PushItems(s, reply, root, folder, entries, remoteFolderId);
            s.sent <= r.sent && CreatedFolders(r.sent) <= CreatedFolders(s.sent) + DirCount(entries)
    decreases entries, 1
  {
    if entries != [] {
      var prefix := entries[..|entries| - 1];
      PushItemsCreatesAtMost(s, reply, root, folder, prefix, remoteFolderId);
      var s1 := PushItems(s, reply, root, folder, prefix, remoteFolderId);
      PushEntryCreatesAtMost(s1, reply, root, folder, entries[|entries| - 1], remoteFolderId);
    }
  }

  lemma {:induction false} PushEntryCreatesAtMost(s: PushState, reply: (nat, Request) -> Reply, root: Path,
                                                  folder: Path, entry: LocalEntry, remoteFolderId: string)
    ensures var r := PushEntry(s, reply, root, folder, entry, remoteFolderId);
            s.sent <= r.sent && CreatedFolders(r.sent) <= CreatedFolders(s.sent) + EntryDirCount(entry)
    decreases entry, 0
  {
    match entry
    case LocalDir(name, stat, children) =>
      PushFolderCreatesAtMost(s, reply, root, folder + [name], stat, children, remoteFolderId);
    case LocalFile(name, stat, digest) =>
      PushFileCreatesNoFolder(s, reply, folder + [name], File(stat, digest), remoteFolderId);
  }

  // ---------------------------------------------------------------------------------
  // The rows the upload paths write.
  // ---------------------------------------------------------------------------------

  /** A new upload is recorded with `file_size` 0 (the create response carries no size),
      the local digest as checksum (nor an MD5) and the row of the local parent directory
      as parent, which is no parent for a file directly inside the root. */
  lemma NewFileRowShape(s: PushState, reply: (nat, Request) -> Reply, path: Path, stat: Stat, digest: string,
                        remoteParent: string)
    requires Valid(s.index)
    requires FindFile(s.index.files, ByLocalPath(path)).None?
    ensures var r := PushNewFile(s, reply, path, File(stat, digest), remoteParent);
            var answer := reply(|s.sent|, CreateFile(Name(path), remoteParent));
            var row := FindFile(r.index.files, ByLocalPath(path));
            && (row.Some? <==> answer.Resource?)
            && (row.Some? ==>
                  && row.value.fields.remoteId == answer.id
                  && row.value.fields.kind == FileKind
                  && row.value.fields.fileSize == Some(0)
                  && row.value.fields.localSize == Some(stat.size)
                  && row.value.fields.checksum == Some(digest)
                  && row.value.fields.lastModifiedRemote == RemoteTime(AsItem(answer))
                  && row.value.fields.parentId == ParentRef(FindFile(s.index.files, ByLocalPath(Parent(path)))))
  {
    var answer := reply(|s.sent|, CreateFile(Name(path), remoteParent));
    if answer.Resource? {
      var item := AsItem(answer);
      var parentId := ParentRef(FindFile(s.index.files, ByLocalPath(Parent(path))));
      var local := Some(File(stat, digest));
      UpsertItemKeepsOthers(s.index, item, path, parentId, FileKind, local);
      var prepared := PrepareFileAttributes(item, path, parentId, FileKind, local);
      var (index, rec) := UpsertItem(s.index, item, path, parentId, FileKind, local);
      var row := FindFile(index.files, ByLocalPath(path));
      if row.Some? {
        assert row.value !in s.index.files;
        UpsertPreservesValid(s.index, prepared.value);
        var k :| 0 <= k < |index.files| && index.files[k] == rec.value;
        FindFileUnique(index, ByLocalPath(path), k);
      }
    }
  }

  /** A re-upload keeps the stored `parent_id`: afterwards the row at the path still has
      the parent it had, whether or not anything was sent. */
  lemma UpdatedFileKeepsParent(s: PushState, reply: (nat, Request) -> Reply, rec: FileRecord, path: Path,
                               node: Node)
    requires Valid(s.index) && rec in s.index.files && rec.fields.localPath == path
    ensures var r := PushExistingFile(s, reply, rec, path, node);
            var row := FindFile(r.index.files, ByLocalPath(path));
            row.Some? && row.value.fields.parentId == rec.fields.parentId
  {
    var k :| 0 <= k < |s.index.files| && s.index.files[k] == rec;
    FindFileUnique(s.index, ByLocalPath(path), k);
    var answer := reply(|s.sent|, UpdateFile(rec.fields.remoteId));
    if NeedsUpload(rec, node.stat) == Ok(true) && answer.Resource? {
      var item := AsItem(answer);
      var local := Some(node);
      var (index, written) := UpsertItem(s.index, item, path, rec.fields.parentId, FileKind, local);
      if written.Ok? {
        var prepared := PrepareFileAttributes(item, path, rec.fields.parentId, FileKind, local);
        UpsertPreservesValid(s.index, prepared.value);
        var j :| 0 <= j < |index.files| && index.files[j] == written.value;
        FindFileUnique(index, ByLocalPath(path), j);
      }
    }
  }

  // ---------------------------------------------------------------------------------
  // The syncer.
  // ---------------------------------------------------------------------------------

  /** The local-to-remote syncer, holding the index, the Drive service and the configured
      root `LOCAL_FOLDER`. */
  class LocalDriveSyncer {
    const db: DatabaseManager
    const service: DriveService
    const root: Path

    constructor (db: DatabaseManager, service: DriveService, root: Path)
      ensures this.db == db && this.service == service && this.root == root
    {
      this.db, this.service, this.root := db, service, root;
    }

    function Now(): PushState
      reads db, service
    {
      PushState(db.State(), service.sent)
    }

    /** `sync_local_to_drive`. */
    method SyncLocalToDrive(start: Path, startStat: Stat, entries: seq<LocalEntry>, remoteParentId: Option<string>)
      modifies db, service
      ensures Now() == PushPass(old(Now()), service.reply, root, start, startStat, entries, remoteParentId)
      ensures Consistent(old(db.State())) ==> Consistent(db.State())
    {
      ghost var s0 := Now();
      var remoteParent := RemoteParentOrRoot(remoteParentId);
      SyncLocalFolder(start, startStat, entries, remoteParent);
      if Consistent(s0.index) {
        PushPassKeepsConsistent(s0, service.reply, root, start, startStat, entries, remoteParentId);
      }
    }

    /** `_sync_local_folder`: a failure ends this folder only. */
    method SyncLocalFolder(path: Path, stat: Stat, entries: seq<LocalEntry>, remoteParent: string)
      modifies db, service
      ensures Now() == PushFolder(old(Now()), service.reply, root, path, stat, entries, remoteParent)
      decreases entries, 2
    {
      var folderRemoteId := remoteParent;
      if path != root {
        var folder := GetOrCreateFolder(path, stat, remoteParent);
        if folder.Err? {
          return;
        }
        folderRemoteId := folder.value.fields.remoteId;
      }
      ProcessFolderItems(path, entries, folderRemoteId);
    }

    /** `_get_or_create_folder`. */
    method GetOrCreateFolder(path: Path, stat: Stat, remoteParent: string) returns (r: Result<FileRecord, Error>)
      modifies db, service
      ensures (Now(), r) == PushGetOrCreateFolder(old(Now()), service.reply, path, stat, remoteParent)
    {
      var existing := db.GetFileByLocalPath(path);
      if existing.Some? {
        return Ok(existing.value);
      }
      var created := service.Call(CreateFolder(Name(path), remoteParent));
      if !created.Resource? {
        return Err(HttpError);
      }
      r := UpdateFolderRecord(path, stat, created.id);
    }

    /** `_update_folder_record`. */
    method UpdateFolderRecord(path: Path, stat: Stat, remoteId: string) returns (r: Result<FileRecord, Error>)
      modifies db, service
      ensures (Now(), r) == PushFolderRecord(old(Now()), service.reply, path, stat, remoteId)
    {
      var parent := db.GetFileByLocalPath(Parent(path));
      var remoteFolder := service.Call(GetItem(remoteId));
      if !remoteFolder.Resource? {
        return Err(HttpError);
      }
      r := db.UpdateFileRecord(AsItem(remoteFolder), path, ParentRef(parent), FolderKind, Some(Dir(stat)));
    }

    /** `_process_folder_items`: every entry in turn; each one catches its own failures. */
    method ProcessFolderItems(folder: Path, entries: seq<LocalEntry>, remoteFolderId: string)
      modifies db, service
      ensures Now() == PushItems(old(Now()), service.reply, root, folder, entries, remoteFolderId)
      decreases entries, 1
    {
      ghost var s0 := Now();
      var i := 0;
      while i < |entries|
        invariant 0 <= i <= |entries|
        invariant Now() == PushItems(s0, service.reply, root, folder, entries[..i], remoteFolderId)
      {
        var entry := entries[i];
        assert entries[..i + 1][..i] == entries[..i];
        match entry {
          case LocalDir(name, stat, children) =>
            SyncLocalFolder(folder + [name], stat, children, remoteFolderId);
          case LocalFile(name, stat, digest) =>
            SyncLocalFile(folder + [name], File(stat, digest), remoteFolderId);
        }
        i := i + 1;
      }
      assert entries[..i] == entries;
    }

    /** `_sync_local_file`: a failure ends this file only. */
    method SyncLocalFile(path: Path, node: Node, remoteParent: string)
      modifies db, service
      ensures Now() == PushFile(old(Now()), service.reply, path, node, remoteParent)
    {
      var rec := db.GetFileByLocalPath(path);
      if rec.Some? {
        UpdateExistingFile(rec.value, path, node);
      } else {
        UploadNewFile(path, node, remoteParent);
      }
    }

    /** `_update_existing_file`. */
    method UpdateExistingFile(rec: FileRecord, path: Path, node: Node)
      modifies db, service
      ensures Now() == PushExistingFile(old(Now()), service.reply, rec, path, node)
    {
      var needed := NeedsUpload(rec, node.stat);
      if needed != Ok(true) {
        return;
      }
      var updated := service.Call(UpdateFile(rec.fields.remoteId));
      if !updated.Resource? {
        return;
      }
      var _ := db.UpdateFileRecord(AsItem(updated), path, rec.fields.parentId, FileKind, Some(node));
    }

    /** `_upload_new_file`. */
    method UploadNewFile(path: Path, node: Node, remoteParent: string)
      modifies db, service
      ensures Now() == PushNewFile(old(Now()), service.reply, path, node, remoteParent)
    {
      var created := service.Call(CreateFile(Name(path), remoteParent));
      if !created.Resource? {
        return;
      }
      UpdateNewFileRecord(path, node, AsItem(created));
    }

    /** `_update_new_file_record`. */
    method UpdateNewFileRecord(path: Path, node: Node, remoteFile: DriveItem)
      modifies db
      ensures db.State() == UpsertItem(old(db.State()), remoteFile, path,
                                       ParentRef(FindFile(old(db.files), ByLocalPath(Parent(path)))),
                                       FileKind, Some(node)).0
    {
      var parent := db.GetFileByLocalPath(Parent(path));
      var _ := db.UpdateFileRecord(remoteFile, path, ParentRef(parent), FileKind, Some(node));
    }
  }
}
