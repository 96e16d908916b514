# gdrive-syncer reconciliation core, in Dafny

gdrive-syncer keeps a local folder and a Google Drive folder in step. Each cycle runs two
passes over a shared metadata index (an SQLite `files` table):

* the **remote-to-local pass** (`DriveLocalSyncer`) walks the Drive tree depth first. For each
  folder it makes a local directory and upserts a folder row. For each file it asks its change
  detector whether to download, fetching the media or exporting native Google documents.
  A fetch that delivers is recorded in the index, unless a row of another Drive id already
  holds that path (the UNIQUE `local_path` raises IntegrityError, which is caught). A failed
  fetch is only logged, and the empty file opened for it stays behind;
* the **local-to-remote pass** (`LocalDriveSyncer`) walks the local tree. It finds or creates
  a Drive folder for each directory. It uploads files the index does not know and re-uploads
  known files its own change detector calls stale;
* both passes record what they synchronised through one upsert keyed by the Drive id
  (`DatabaseManager.update_file_record`).

The modules:

| file | module | contents |
|---|---|---|
| `wrappers.dfy` | `Wrappers`, `Errors` | `Option`, `Result`, the exceptions the core can raise |
| `local_fs.dfy` | `LocalFs` | paths, `stat()` results, the disk as a value and as the class `LocalDisk` |
| `remote.dfy` | `Remote` | Drive items, timestamps, the listed tree, requests and replies, the class `DriveService` |
| `records.dfy` | `Records` | the `files` and `sync_history` rows and the table constraints |
| `database_manager.dfy` | `Database` | lookups, attribute builder, upsert, the class `DatabaseManager` |
| `drive_to_local.dfy` | `DriveToLocal` | export naming, download detector, the remote-to-local pass, the class `DriveLocalSyncer` |
| `local_to_drive.dfy` | `LocalToDrive` | upload detector, the local-to-remote pass, the class `LocalDriveSyncer` |

Each pass is specified twice. First it is a family of pure functions (`Pull*` and `Push*`) on a
value holding the index, the disk and the Drive request log. Then it is a class whose methods
change `DatabaseManager`, `LocalDisk` and `DriveService` in place. Each method's `ensures`
ties the new state to the matching function. The lemmas are proved about the functions.

How the outside world is represented:

* **Drive.** `DriveService` logs every request in `sent`. Its answer to the n-th request is a
  fixed but arbitrary function `reply(n, request)`, so every lemma holds for every pattern of
  failures and answers. A resource reply carries `id`, `name` and `modifiedTime`. The folder
  create asks only for `id`; the file create and the folder get also ask for `mimeType`, which
  the upsert never reads. None of the three asks for `size` or `md5Checksum`. An upload is
  therefore recorded with `file_size` 0 and the local digest as its checksum.
* **Local disk.** In the remote-to-local pass the disk is a map from paths to directories and
  files. Each file has a size, an mtime and a digest. Writes are stamped with a clock that then
  advances. The local-to-remote pass only reads the disk, so its tree is a `LocalEntry` value.
* **Listing.** The remote-to-local walk receives the listed tree as a `RemoteNode` value.
* **Timestamps.** They are integers counting microseconds, the resolution `datetime` keeps;
  Drive's millisecond readings and `st_mtime` converted by `utcfromtimestamp` both fit exactly,
  and the code only compares them. A Drive timestamp carries its text and its parsed
  value. Removing the time zone keeps the wall-clock reading; the index stores naive values.
* **Exceptions.** Where the source lets an exception escape, the remote-to-local functions
  return `ok == false` and the walk stops (`PullAbortSticks`). The local-to-remote pass catches
  every failure at the folder or file where it happened.

The model keeps these behaviours of the code:

* equal sizes never trigger a transfer in either direction. The mtime comparison is reached
  only when one size is strictly larger;
* the remote-to-local pass gives top-level rows `parent_id` 0. The local-to-remote pass gives
  them no `parent_id`, because the configured root never gets a row;
* in the remote-to-local pass some failures are not caught per item, and these end the whole
  pass: creating a directory where a file is, a rejected folder upsert, or a larger remote file
  with no `modifiedTime`;
* a failed download is not retried on the next cycle. The target was opened for writing before
  the fetch, so an empty file is left behind, and the next pass sees no reason to fetch
  (`DriveToLocal.FailedDownloadNotRetried`);
* a native Google document is exported again on every pass. The existence check looks at the
  plain name, but the export is written under the name plus the extension.

## Model

| member | source | states |
|---|---|---|
| Remote.ParseDateTime | database_manager.py:21-24 | a missing or empty timestamp gives None; any other gives its parsed value |
| Remote.Naive | drive_to_local_syncer.py:109 | dropping the time zone keeps the wall-clock reading, whatever the UTC offset was |
| Remote.SizeOrZero | database_manager.py:65 | the listed size, or 0 when the item has none |
| Remote.AsItem | local_to_drive_syncer.py:75-77 | a create/get/update reply has an id, a name and a modifiedTime, never a size or an MD5 |
| Remote.DriveService.Call | local_to_drive_syncer.py:75 | each Drive call is appended to the request log and answered by the store's reply for that position |
| LocalFs.Parent | local_to_drive_syncer.py:82 | `path.parent` followed by the name gives back the path |
| LocalFs.BelowTransitive | local_to_drive_syncer.py:99-106 | a path inside a subdirectory is inside the directory as well |
| LocalFs.MakeDir | drive_to_local_syncer.py:50-51 | mkdir fails exactly when a file is at the path; otherwise a directory is there afterwards and nothing else changes |
| LocalFs.WriteFile | drive_to_local_syncer.py:79-80 | writing leaves exactly that content, stamped now, at the path and changes no other path |
| LocalFs.LocalDisk.MkDir | drive_to_local_syncer.py:51 | the in-place mkdir does what `MakeDir` says |
| LocalFs.LocalDisk.Write | drive_to_local_syncer.py:79-80 | the in-place write does what `WriteFile` says |
| Database.FindFirst | database_manager.py:47-53 | the first row matching the key, or None when no row matches |
| Database.FindFile | database_manager.py:47-53 | Some exactly when a row matches the key; the row returned is in the table and matches |
| Database.FindFileUnique | database.py:15-16 | under the unique constraints, a lookup returns the one row holding that key |
| Database.LocalChecksum | database_manager.py:26-36 | None for a missing path, the digest for a file, IsADirectoryError for a directory |
| Database.HasRemoteMd5 | database_manager.py:64 | a remote MD5 counts only when present, and an empty one does not |
| Database.RemoteTime | database_manager.py:74 | None exactly when `modifiedTime` is missing or empty; otherwise the wall-clock reading of the parsed value |
| Database.PrepareFileAttributes | database_manager.py:55-80 | folders have no checksum or sizes; files have `size` or 0, the local size or 0, and the remote MD5 before the local digest; status "synced", path, id, name and parent as given; fails only for a file without an MD5 at a directory |
| Database.PathTaken | database.py:15 | the UNIQUE `local_path` rejects the row exactly when another remote id holds that path |
| Database.Upsert | database_manager.py:86-103 | rejected with IntegrityError, the table unchanged, exactly when another remote id holds the path; otherwise the returned row holds the attributes and is in the table |
| Database.UpsertItem | database_manager.py:82-103 | a failure leaves the table unchanged; a success leaves a row with the item's id and name, the path, the parent, the kind and status "synced" |
| Database.UpsertOverwritesInPlace | database_manager.py:90-97 | an existing row for the remote id is overwritten at its position, keeps its id, and no row is added |
| Database.UpsertAppendsOne | database_manager.py:98-103 | without a row for the remote id, exactly one row with the next id is appended |
| Database.UpsertKeepsOthers | database_manager.py:90-103 | rows for other remote ids stay, no id disappears, the table never shrinks |
| Database.UpsertPreservesValid | database.py:13-18 | ids, local paths and remote ids stay unique, ids stay allocated, and parent links stay resolvable when the new one is |
| Database.UpsertTwice | database_manager.py:86-97 | two upserts of one remote id leave one row for it, with the first call's id and the second call's columns |
| Database.UpsertIdempotent | database_manager.py:86-97 | repeating an upsert changes nothing |
| Database.UpsertKeepsHistoryValid | database.py:27-34 | every `sync_history.file_id` still names a `files` row after an upsert |
| Database.UpsertItemKeepsOthers | database_manager.py:86-103 | rows for other remote ids stay; every row afterwards was there before or is the item's row at the path |
| Database.UpsertItemSucceeds | database_manager.py:82-103 | the upsert succeeds unless a file without an MD5 sits on a directory or another remote id holds the path |
| Database.UpsertItemKeepsConsistent | database.py:13-18 | with a resolvable parent, the table constraints and parent links hold afterwards and no id is lost |
| Database.DatabaseManager.constructor | database_manager.py:17-19 | the manager opens over the stored `files` table as it is, which satisfies the table constraints |
| Database.DatabaseManager.GetFileByLocalPath | database_manager.py:47-49 | the row for the local path, or None when no row holds it |
| Database.DatabaseManager.GetFileByRemoteId | database_manager.py:51-53 | the row for the remote id, or None when no row holds it |
| Database.DatabaseManager.UpdateFileRecord | database_manager.py:82-103 | the in-place upsert changes the table and returns exactly what `UpsertItem` says |
| DriveToLocal.ExportFor | drive_to_local_syncer.py:17-24 | document and presentation export to PDF (.pdf), spreadsheet to xlsx (.xlsx); every other type has no export |
| DriveToLocal.DownloadName | drive_to_local_syncer.py:73-74 | the name is unchanged unless exported; an exported name gains the extension and differs from the plain name |
| DriveToLocal.DownloadRequest | drive_to_local_syncer.py:76-77 | an export with the export type for native documents; the media of the id otherwise |
| DriveToLocal.NeedsDownload | drive_to_local_syncer.py:94-109 | true when nothing is local; false when the remote size is at most the local one; otherwise the tz-stripped remote time is strictly later, or an error without one |
| DriveToLocal.SizelessItemNeverDownloaded | drive_to_local_syncer.py:103-107 | an item without a size is never downloaded once something is local |
| DriveToLocal.PullDownload | drive_to_local_syncer.py:60-82 | a directory at the target stops it before anything is sent; otherwise exactly the one export or media request is sent, the target holds the delivered content stamped now (or an empty file after a failed fetch), no other path changes, a failed fetch records nothing, and a delivered one is recorded, unless a row of another remote id already holds the target path, as a file row with the item id, the target, the parent, the listed size or 0 and the local size |
| DriveToLocal.PullFileItem | drive_to_local_syncer.py:55-58 | only the detector's own error escapes; when it says no, nothing changes; when it says yes, the result is the download of `PullDownload` |
| DriveToLocal.PullFolderItem | drive_to_local_syncer.py:48-53 | a folder item only appends to the Drive log, and only fetch requests |
| DriveToLocal.FolderItemFailures | drive_to_local_syncer.py:48-53 | `mkdir` where a file is ends the pass with nothing changed; a rejected folder upsert ends it with the directory made and nothing recorded or sent |
| DriveToLocal.PullItem | drive_to_local_syncer.py:43-46 | one listed item only appends to the Drive log, and only fetch requests |
| DriveToLocal.PullFolder | drive_to_local_syncer.py:36-46 | the walk of a listing only appends to the Drive log, and only fetch requests: the remote-to-local pass never changes Drive |
| DriveToLocal.PullAbortSticks | drive_to_local_syncer.py:43-46 | once an item lets an exception escape, the rest of the listing is not visited |
| DriveToLocal.PullDownloadKeepsConsistent | drive_to_local_syncer.py:67 | recording a download keeps the index consistent and every id |
| DriveToLocal.PullFolderKeepsConsistent | drive_to_local_syncer.py:36-46 | walking a listing keeps the index consistent and loses no id |
| DriveToLocal.PullItemKeepsConsistent | drive_to_local_syncer.py:44-46 | one item, through both handlers, keeps the index consistent |
| DriveToLocal.PullFolderItemKeepsConsistent | drive_to_local_syncer.py:48-53 | a folder's row and the walk of its subtree keep the index consistent and lose no id |
| DriveToLocal.PullPassKeepsConsistent | drive_to_local_syncer.py:32-34 | the pass started with `parent_id=0` keeps the index consistent |
| LocalFs.ChildIsBelow | drive_to_local_syncer.py:50 | `folder / name`, for one path component `name`, lies inside the folder and has it as parent |
| DriveToLocal.SameOutsideWidens | drive_to_local_syncer.py:50-53 | changes inside a subfolder are changes inside its parent |
| DriveToLocal.PullFolderStaysInside | drive_to_local_syncer.py:36-46 | walking a folder changes nothing on disk outside it |
| DriveToLocal.PullItemStaysInside | drive_to_local_syncer.py:44-46 | one item changes nothing on disk outside the folder |
| DriveToLocal.PullFolderItemStaysInside | drive_to_local_syncer.py:48-53 | a folder item changes nothing on disk outside the parent folder |
| DriveToLocal.FolderNeverDownloadedAsFile | drive_to_local_syncer.py:44-46 | a folder also reaches the file handler, which finds its directory and downloads nothing |
| DriveToLocal.PullFolderKeepsUnlisted | drive_to_local_syncer.py:36-46 | rows for remote ids outside the walked tree stay |
| DriveToLocal.PullItemKeepsUnlisted | drive_to_local_syncer.py:44-46 | rows for remote ids outside the item's subtree stay |
| DriveToLocal.PullFolderItemKeepsUnlisted | drive_to_local_syncer.py:48-53 | rows for remote ids outside the folder's subtree stay |
| DriveToLocal.FolderItemIndexed | drive_to_local_syncer.py:48-53 | a finished folder item has its directory and a folder row with its path and the current `parent_id` |
| DriveToLocal.LinksWrittenChain | drive_to_local_syncer.py:43-46 | rows written inside a folder under its parent id by two steps are written so by both |
| DriveToLocal.LinksWrittenWidens | drive_to_local_syncer.py:50-53 | rows written inside a subfolder are inside its parent and none is directly inside it |
| DriveToLocal.PullDownloadLinks | drive_to_local_syncer.py:60-67 | a download writes only the target's row, with the folder's `parent_id` |
| DriveToLocal.PullFolderLinks | drive_to_local_syncer.py:36-46 | a listing's walk writes rows only inside its folder, and those directly inside it carry the walk's `parent_id` |
| DriveToLocal.PullItemLinks | drive_to_local_syncer.py:43-46 | one item writes rows only inside the folder, with the folder's `parent_id` directly inside it |
| DriveToLocal.PullFolderItemLinks | drive_to_local_syncer.py:48-53 | a folder item writes rows only inside the parent folder, with its `parent_id` directly inside it |
| DriveToLocal.FolderChildrenLinked | drive_to_local_syncer.py:48-53 | a finished folder item has its folder row, and every row its walk wrote directly inside the new directory has that row's id as `parent_id` |
| DriveToLocal.ExportedItemStaysMissing | drive_to_local_syncer.py:57-58 | after an export, the checked plain path is still missing, so the next pass exports again |
| DriveToLocal.DownloadedFileIsCurrent | drive_to_local_syncer.py:94-109 | a plain file fetched at least at its listed size is not downloaded again |
| DriveToLocal.FailedDownloadNotRetried | drive_to_local_syncer.py:60-80 | a failed fetch records nothing and leaves an empty file that the next check does not fetch again |
| DriveToLocal.DriveLocalSyncer.SyncFolderStructure | drive_to_local_syncer.py:32-34 | the in-place pass is `PullFolder` from `parent_id=0`, and it keeps the index consistent |
| DriveToLocal.DriveLocalSyncer.ProcessFolder | drive_to_local_syncer.py:36-46 | the in-place loop over the listing is `PullFolder` |
| DriveToLocal.DriveLocalSyncer.ProcessFolderItem | drive_to_local_syncer.py:48-53 | the in-place folder handler is `PullFolderItem` |
| DriveToLocal.DriveLocalSyncer.ProcessFileItem | drive_to_local_syncer.py:55-58 | the in-place file handler is `PullFileItem` |
| DriveToLocal.DriveLocalSyncer.DownloadFile | drive_to_local_syncer.py:60-82 | the in-place download is `PullDownload` |
| LocalToDrive.NeedsUpload | local_to_drive_syncer.py:143-156 | false when the stored size is at least the local one; otherwise the local mtime is strictly later than the stored remote time; a TypeError when a stored value is missing |
| LocalToDrive.DetectorsNeverBothFire | local_to_drive_syncer.py:151-156 | when the row stores the listed size, the two detectors never both fire, and with equal sizes neither does |
| LocalToDrive.ParentRef | local_to_drive_syncer.py:92 | the parent row's id, or None without a parent row |
| LocalToDrive.RemoteParentOrRoot | local_to_drive_syncer.py:37 | a missing or empty remote parent becomes "root" |
| LocalToDrive.PushFolderRecord | local_to_drive_syncer.py:79-95 | one get request is sent; a success is the fetched folder's row, in the table, of kind folder, at the path, under the parent directory's row; a failed get or upsert leaves the index alone; an answered get with no other remote id at the path succeeds |
| LocalToDrive.PushGetOrCreateFolder | local_to_drive_syncer.py:60-77 | an indexed path is returned with nothing sent; otherwise exactly one folder is created, under the given remote parent; the folder returned is the table's row at the path, a created one of kind folder under the local parent's row; a failure records nothing, and two answered requests always succeed |
| LocalToDrive.PushExistingFile | local_to_drive_syncer.py:122-141 | nothing happens unless the detector says yes; then exactly one update request for the row's remote id is sent; a failed update records nothing; an answered one is recorded under the stored parent with the reply's id, `file_size` 0, the local size and the local digest |
| LocalToDrive.PushNewFile | local_to_drive_syncer.py:158-195 | exactly one create request under the remote parent is sent; a failed create records nothing; an answered one is recorded under the local parent's row with the reply's id, `file_size` 0, the local size and the local digest |
| LocalToDrive.PushFile | local_to_drive_syncer.py:108-120 | handling a file only appends to the Drive log, and never a download |
| LocalToDrive.PushFolder | local_to_drive_syncer.py:43-58 | a directory's walk only appends to the Drive log, and never a download; where it places things is `PushFolderPlaced` |
| LocalToDrive.PushItems | local_to_drive_syncer.py:97-106 | the entries only append to the Drive log, and never a download; where they are placed is `PushItemsPlaced` |
| LocalToDrive.PushEntry | local_to_drive_syncer.py:103-106 | one entry only appends to the Drive log, and never a download; where it is placed is `PushEntryPlaced` |
| LocalToDrive.GetOrCreateFolderSends | local_to_drive_syncer.py:60-87 | get-or-create sends nothing but the folder create, named after the directory and under the given Drive parent, and the fetch of the created folder |
| LocalToDrive.PushFolderPlaced | local_to_drive_syncer.py:43-58 | a directory other than the configured root is created (if at all) under the given Drive parent, and each of its entries is placed under the Drive id of the row get-or-create returned for it, which is the row at the directory's path; the root's entries go under the given Drive parent |
| LocalToDrive.PushItemsPlaced | local_to_drive_syncer.py:97-106 | every entry of the folder, in the state left by the entries before it, is placed under the folder's Drive id |
| LocalToDrive.PushEntryPlaced | local_to_drive_syncer.py:103-106 | a file is created under the folder's Drive id, named by its own name, or updated in place; a directory is placed recursively, with the folder's Drive id as its Drive parent |
| LocalToDrive.PushPass | local_to_drive_syncer.py:35-41 | the whole local-to-remote pass only appends to the Drive log, and never downloads |
| LocalToDrive.RecordIdKnown | database.py:18 | a row's id is a known id, and so is its parent under resolvable links |
| LocalToDrive.ParentRefKnown | local_to_drive_syncer.py:82-92 | the parent reference of an upload is absent or a row's id |
| LocalToDrive.PushFolderRecordKeepsConsistent | local_to_drive_syncer.py:79-95 | recording a folder keeps the index consistent and every id |
| LocalToDrive.PushFileKeepsConsistent | local_to_drive_syncer.py:108-141 | handling one file keeps the index consistent and every id |
| LocalToDrive.PushFolderKeepsConsistent | local_to_drive_syncer.py:43-58 | walking a directory keeps the index consistent and loses no id |
| LocalToDrive.PushItemsKeepsConsistent | local_to_drive_syncer.py:97-106 | walking the entries keeps the index consistent |
| LocalToDrive.PushEntryKeepsConsistent | local_to_drive_syncer.py:103-106 | one entry keeps the index consistent |
| LocalToDrive.PushPassKeepsConsistent | local_to_drive_syncer.py:35-41 | the whole pass keeps the index consistent |
| LocalToDrive.WritesWithinChain | local_to_drive_syncer.py:101-106 | rows written within a folder by two steps are written within it by both |
| LocalToDrive.WritesWithinWidens | local_to_drive_syncer.py:103-106 | rows written within a child are written strictly within its parent |
| LocalToDrive.UpsertWritesAt | local_to_drive_syncer.py:90-93 | an upsert writes no row for any other path |
| LocalToDrive.PushFileWritesAt | local_to_drive_syncer.py:108-120 | handling a file writes rows only for that file's path |
| LocalToDrive.PushGetOrCreateFolderWritesAt | local_to_drive_syncer.py:60-77 | get-or-create writes rows only for that directory's path |
| LocalToDrive.PushFolderWritesWithin | local_to_drive_syncer.py:43-58 | a directory's walk writes rows only for paths inside it, and for itself unless it is the configured root |
| LocalToDrive.PushItemsWritesWithin | local_to_drive_syncer.py:97-106 | the entries write rows only for paths strictly inside the folder |
| LocalToDrive.PushEntryWritesWithin | local_to_drive_syncer.py:103-106 | one entry writes rows only for paths strictly inside the folder |
| LocalToDrive.PushPassNeverIndexesRoot | local_to_drive_syncer.py:35-51 | from the configured root, its children go straight under the remote parent, and the root never gets a row |
| LocalToDrive.TopLevelParentIsNone | local_to_drive_syncer.py:188-193 | directly inside an unindexed root, an upload's parent lookup finds nothing and the row has no `parent_id` |
| LocalToDrive.CreatedFoldersAppend | local_to_drive_syncer.py:75 | a request adds one to the folder-creation count exactly when it creates a folder |
| LocalToDrive.PushFileCreatesNoFolder | local_to_drive_syncer.py:108-120 | handling a file only appends to the log and creates no folder |
| LocalToDrive.PushGetOrCreateFolderCreatesOne | local_to_drive_syncer.py:60-77 | get-or-create only appends to the log and creates at most one folder |
| LocalToDrive.PushFolderCreatesAtMost | local_to_drive_syncer.py:43-58 | a walk creates at most one Drive folder per local directory in it, none for the configured root |
| LocalToDrive.PushItemsCreatesAtMost | local_to_drive_syncer.py:97-106 | the entries create at most one Drive folder per directory among them |
| LocalToDrive.PushEntryCreatesAtMost | local_to_drive_syncer.py:103-106 | one entry creates at most one Drive folder per directory in it |
| LocalToDrive.NewFileRowShape | local_to_drive_syncer.py:158-195 | for an unindexed path, a row appears exactly when the create is answered, and it has the created id, `file_size` 0, the local size and digest, the remote time, and the local parent directory's row as parent |
| LocalToDrive.UpdatedFileKeepsParent | local_to_drive_syncer.py:122-141 | after a re-upload check, the row at the path still has its stored `parent_id` |
| LocalToDrive.LocalDriveSyncer.SyncLocalToDrive | local_to_drive_syncer.py:35-41 | the in-place pass is `PushPass`, and it keeps the index consistent |
| LocalToDrive.LocalDriveSyncer.SyncLocalFolder | local_to_drive_syncer.py:43-58 | the in-place folder walk is `PushFolder` |
| LocalToDrive.LocalDriveSyncer.GetOrCreateFolder | local_to_drive_syncer.py:60-77 | the in-place get-or-create is `PushGetOrCreateFolder` |
| LocalToDrive.LocalDriveSyncer.UpdateFolderRecord | local_to_drive_syncer.py:79-95 | the in-place folder record is `PushFolderRecord` |
| LocalToDrive.LocalDriveSyncer.ProcessFolderItems | local_to_drive_syncer.py:97-106 | the in-place loop over the entries is `PushItems` |
| LocalToDrive.LocalDriveSyncer.SyncLocalFile | local_to_drive_syncer.py:108-120 | the in-place file handler is `PushFile` |
| LocalToDrive.LocalDriveSyncer.UpdateExistingFile | local_to_drive_syncer.py:122-141 | the in-place re-upload is `PushExistingFile` |
| LocalToDrive.LocalDriveSyncer.UploadNewFile | local_to_drive_syncer.py:158-173 | the in-place upload is `PushNewFile` |
| LocalToDrive.LocalDriveSyncer.UpdateNewFileRecord | local_to_drive_syncer.py:185-195 | the new row is upserted under the local parent directory's row |

## Left out

- `authenticate` in both syncers: the OAuth flow and the token file are outside the model.
- The Drive listing call in `_process_folder`: the walk is given the listed tree. The source
  reads only the first page of a listing, and the tree models exactly what was listed.
- `_download_with_progress`: chunked transfer and progress reporting. A fetch either delivers
  all its content or fails. A failure after some chunks would leave those chunks in the file;
  the model leaves the file empty.
- `_create_media_upload` and the `mimetypes` guess: what is uploaded is not modelled, only
  the request.
- MD5 hashing, `stat()`, `utcfromtimestamp` and the date parser: digests, sizes and integer
  timestamps are inputs. A timestamp carries its already-parsed value.
- `int(item["size"])` on a malformed string: sizes are natural numbers.
- The SQLAlchemy session: after an IntegrityError the real session must be rolled back, and
  later calls on it fail. The model leaves the table unchanged and goes on.
- LocalFs.MakeDir: `mkdir(parents=True)` also creates missing ancestors, and it raises when
  an ancestor is a file. The model creates only the directory itself; missing ancestors are not
  added to the disk, and only a file at the path itself makes it fail. The walk always creates
  a directory inside one it created or was given, so the ancestors exist whenever the
  configured root does.
- LocalFs.LocalDisk.MkDir: the same gap as `LocalFs.MakeDir`, which it follows.
- LocalFs.WriteFile: opening a file below a missing directory raises FileNotFoundError, which
  `_download_file` catches, so nothing is recorded. The model writes the file regardless; the
  walk never writes below a missing directory once the configured root exists.
- LocalFs.LocalDisk.Write: the same gap as `LocalFs.WriteFile`, which it follows.
- LocalFs.ChildIsBelow: a path is a sequence of components, and `folder / name` appends the
  Drive name as one component. pathlib splits a name holding "/" into several components, and
  a name ".." climbs out of the folder; the lemma holds only for names that are one plain
  component.
- DriveToLocal.PullFolderStaysInside: holds only for listed names that are one plain
  component. In the source a folder named "../x" is created, recorded and filled beside the
  walked folder, and a file named "a/b" collides with the path of a folder "a" holding "b".
- DriveToLocal.PullItemStaysInside: holds only for plain names, as for
  `DriveToLocal.PullFolderStaysInside`.
- DriveToLocal.PullFolderItemStaysInside: holds only for plain names, as for
  `DriveToLocal.PullFolderStaysInside`.
- DriveToLocal.PullFolder: idempotence and convergence are proved per item, not for a whole
  pass. `FolderItemIndexed`, `FolderChildrenLinked` and the success
  half of `PullDownload` show each item recorded; `DownloadedFileIsCurrent` shows a plain file
  fetched at its listed size is not fetched again, and `UpsertIdempotent` shows that a repeated
  upsert changes nothing. A whole pass does not always record everything, and a second pass
  is not a no-op in the source: native documents are exported again every time
  (`ExportedItemStaysMissing`). A failed fetch leaves an empty file that is
  never fetched again (`FailedDownloadNotRetried`). Two Drive items with one name in a folder
  overwrite each other's file and fight over one `local_path`.
- LocalToDrive.PushPass: idempotence is proved per item, not for a whole pass
  (`PushGetOrCreateFolder` returns an indexed directory without sending anything). An upload
  is recorded with `file_size` 0, so on the next push only the mtime comparison against
  Drive's own `modifiedTime` decides whether it is sent again.
- `iterdir()` failing, and files changing while a pass runs: the local tree is a fixed snapshot.
- `google_drive_sync.py`: the endless loop runs the remote-to-local pass, then the
  local-to-remote pass, then sleeps. It and the logging are not part of this model.
- `sync_history`: the core never writes it. Only its constraints, and their preservation by
  upserts, are modelled.
- `_get_file_modified_time` on a missing path: the model reads the mtime of the node given.
