/**
 * The two tables of the metadata index, `files` and `sync_history`, with the
 * constraints the schema declares on them, stated as predicates on the table contents.
 */
module Records {
  import opened Wrappers
  import opened LocalFs

  /** The `type` column: the string 'file' or 'folder'. */
  datatype Kind = FileKind | FolderKind

  /** The only `sync_status` the syncers ever write. */
  const SYNCED := "synced"

  /** The `parent_id` the remote-to-local pass gives to top-level items: no record has id 0. */
  const ROOT_PARENT := 0

  /** Every column of a `files` row except the primary key. `type`, `name` and
      `sync_status` are NOT NULL, so they are not optional; timestamps are naive UTC seconds. */
  datatype Attributes = Attributes(
    kind: Kind,
    localPath: Path,
    remoteId: string,
    parentId: Option<int>,
    name: string,
    checksum: Option<string>,
    lastModifiedRemote: Option<int>,
    lastModifiedLocal: Option<int>,
    syncStatus: string,
    fileSize: Option<int>,
    localSize: Option<int>)

  /** A `files` row: the auto-incremented primary key and the other columns. */
  datatype FileRecord = FileRecord(id: nat, fields: Attributes)

  /** A `sync_history` row; `file_id`, `action` and `status` are NOT NULL. */
  datatype SyncHistory = SyncHistory(
    id: nat,
    fileId: nat,
    syncTimestamp: Option<int>,
    action: string,
    status: string,
    errorMessage: Option<string>)

  /** The `files` table and the next primary key the table will hand out. */
  datatype IndexState = IndexState(files: seq<FileRecord>, nextId: nat)

  ghost predicate UniqueIds(files: seq<FileRecord>)
  {
    forall i, j :: 0 <= i < j < |files| ==> files[i].id != files[j].id
  }

  /** `local_path` is UNIQUE. */
  ghost predicate UniqueLocalPaths(files: seq<FileRecord>)
  {
    forall i, j :: 0 <= i < j < |files| ==> files[i].fields.localPath != files[j].fields.localPath
  }

  /** `remote_id` is UNIQUE. */
  ghost predicate UniqueRemoteIds(files: seq<FileRecord>)
  {
    forall i, j :: 0 <= i < j < |files| ==> files[i].fields.remoteId != files[j].fields.remoteId
  }

  /** Auto-increment: every id handed out so far is positive and below `nextId`. */
  ghost predicate IdsAllocated(s: IndexState)
  {
    1 <= s.nextId && forall i :: 0 <= i < |s.files| ==> 1 <= s.files[i].id < s.nextId
  }

  /** The constraints of the `files` table. */
  ghost predicate Valid(s: IndexState)
  {
    UniqueIds(s.files) && UniqueLocalPaths(s.files) && UniqueRemoteIds(s.files) && IdsAllocated(s)
  }

  ghost function Ids(files: seq<FileRecord>): set<int>
  {
    set i | 0 <= i < |files| :: files[i].id as int
  }

  /** The `parent_id` foreign key, as the syncers keep it: absent, the remote-to-local
      root sentinel 0, or the id of a record. */
  ghost predicate ParentKnown(files: seq<FileRecord>, p: Option<int>)
  {
    p.None? || p == Some(ROOT_PARENT) || p.value in Ids(files)
  }

  ghost predicate ParentsKnown(files: seq<FileRecord>)
  {
    forall i :: 0 <= i < |files| ==> ParentKnown(files, files[i].fields.parentId)
  }

  /** The table constraints together with resolvable parent links. */
  ghost predicate Consistent(s: IndexState)
  {
    Valid(s) && ParentsKnown(s.files)
  }

  /** The `sync_history` constraints: unique ids, and `file_id` refers to a `files` row. */
  ghost predicate HistoryValid(history: seq<SyncHistory>, files: seq<FileRecord>)
  {
    && (forall i, j :: 0 <= i < j < |history| ==> history[i].id != history[j].id)
    && (forall i :: 0 <= i < |history| ==> history[i].fileId as int in Ids(files))
  }
}
