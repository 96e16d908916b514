/**
 * `DatabaseManager`: lookups in the `files` table, the attribute builder, and the
 * upsert keyed by `remote_id` that both syncers use to record what they synchronised.
 */
module Database {
  import opened Wrappers
  import opened Errors
  import opened LocalFs
  import opened Remote
  import opened Records

  /** The two columns the index is queried by. */
  datatype Key = ByLocalPath(path: Path) | ByRemoteId(id: string)

  predicate Matches(r: FileRecord, k: Key)
  {
    match k
    case ByLocalPath(p) => r.fields.localPath == p
    case ByRemoteId(id) => r.fields.remoteId == id
  }

  /** `query(File).filter_by(...).first()`: the position of the first matching row. */
  function FindFirst(files: seq<FileRecord>, k: Key): (r: Option<nat>)
    ensures r.Some? ==> r.value < |files| && Matches(files[r.value], k)
    ensures r.Some? ==> forall j :: 0 <= j < r.value ==> !Matches(files[j], k)
    ensures r.None? ==> forall j :: 0 <= j < |files| ==> !Matches(files[j], k)
  {
    if files == [] then None
    else if Matches(files[0], k) then Some(0)
    else
      match FindFirst(files[1..], k)
      case None => None
      case Some(i) => Some(i + 1)
  }

  function FindFile(files: seq<FileRecord>, k: Key): (r: Option<FileRecord>)
    ensures r.Some? <==> exists j :: 0 <= j < |files| && Matches(files[j], k)
    ensures r.Some? ==> r.value in files && Matches(r.value, k)
  {
    match FindFirst(files, k)
    case None => None
    case Some(i) => Some(files[i])
  }

  /** Under the UNIQUE constraints a lookup finds THE row with that key. */
  lemma FindFileUnique(s: IndexState, k: Key, j: nat)
    requires Valid(s)
    requires j < |s.files| && Matches(s.files[j], k)
    ensures FindFirst(s.files, k) == Some(j)
    ensures FindFile(s.files, k) == Some(s.files[j])
  {
  }

  /** `_get_local_checksum`: None when the path is missing; opening a directory raises. */
  function LocalChecksum(local: Option<Node>): (r: Result<Option<string>, Error>)
    ensures r.Err? <==> local.Some? && local.value.Dir?
    ensures local.None? ==> r == Ok(None)
    ensures local.Some? && local.value.File? ==> r == Ok(Some(local.value.digest))
  {
    match local
    case None => Ok(None)
    case Some(Dir(_)) => Err(IsADirectoryError)
    case Some(File(_, digest)) => Ok(Some(digest))
  }

  /** `item.get("md5Checksum")` is truthy: present and not the empty string. */
  predicate HasRemoteMd5(item: DriveItem): (b: bool)
    ensures b ==> item.md5Checksum.Some?
    ensures item.md5Checksum == Some("") ==> !b
  {
    item.md5Checksum.Some? && item.md5Checksum.value != ""
  }

  /** `_parse_datetime` then `replace(tzinfo=None)`, as the DateTime column stores it. */
  function RemoteTime(item: DriveItem): (r: Option<int>)
    ensures r.None? <==> item.modifiedTime.None? || item.modifiedTime.value.text == ""
    // the wall-clock reading of the parsed value, whatever its UTC offset
    ensures r.Some? ==> r.value == item.modifiedTime.value.parsed.wall
  {
    match ParseDateTime(item.modifiedTime)
    case None => None
    case Some(d) => Some(Naive(d))
  }

  /** `_prepare_file_attributes`; `local` is what the filesystem holds at `path`. */
  function PrepareFileAttributes(item: DriveItem, path: Path, parentId: Option<int>, kind: Kind,
                                 local: Option<Node>): (r: Result<Attributes, Error>)
    ensures r.Err? <==> kind == FileKind && !HasRemoteMd5(item) && local.Some? && local.value.Dir?
    ensures r.Ok? ==> && r.value.kind == kind && r.value.localPath == path
                      && r.value.remoteId == item.id && r.value.name == item.name
                      && r.value.parentId == parentId && r.value.syncStatus == SYNCED
    ensures r.Ok? ==> && r.value.lastModifiedRemote == RemoteTime(item)
                      && r.value.lastModifiedLocal == (if local.Some? then Some(local.value.stat.mtime) else None)
    // folders carry no checksum and no sizes
    ensures r.Ok? && kind == FolderKind ==>
              r.value.checksum.None? && r.value.fileSize.None? && r.value.localSize.None?
    // files: the remote size or 0, the local size or 0, the remote MD5 before the local one
    ensures r.Ok? && kind == FileKind ==>
              && r.value.fileSize == Some(SizeOrZero(item))
              && r.value.localSize == Some(if local.Some? then local.value.stat.size else 0)
              && r.value.checksum == (if HasRemoteMd5(item) then item.md5Checksum
                                      else if local.Some? then Some(local.value.digest) else None)
  {
    var checksum: Result<Option<string>, Error> :=
      if kind.FolderKind? then Ok(None)
      else if HasRemoteMd5(item) then Ok(item.md5Checksum)
      else LocalChecksum(local);
    if checksum.Err? then Err(checksum.error)
    else
      var remoteSize: Option<int> := if kind == FolderKind then None else Some(SizeOrZero(item));
      var localSize: Option<int> :=
        if kind == FolderKind then None
        else Some(if local.Some? then local.value.stat.size else 0);
      Ok(Attributes(
        kind, path, item.id, parentId, item.name, checksum.value,
        RemoteTime(item), if local.Some? then Some(local.value.stat.mtime) else None,
        SYNCED, remoteSize, localSize))
  }

  /** Another row (one with a different `remote_id`) already holds the local path, so the
      UNIQUE constraint on `local_path` rejects the commit. */
  predicate PathTaken(files: seq<FileRecord>, a: Attributes): (b: bool)
    ensures !b <==> forall rec :: rec in files && rec.fields.localPath == a.localPath ==>
                                  rec.fields.remoteId == a.remoteId
  {
    exists j | 0 <= j < |files| ::
      files[j].fields.localPath == a.localPath && files[j].fields.remoteId != a.remoteId
  }

  /** The upsert of `update_file_record`, on prepared attributes: overwrite every column of
      the row with the same `remote_id` and keep its id, or else add one row with a fresh id. */
  function Upsert(s: IndexState, a: Attributes): (r: (IndexState, Result<FileRecord, Error>))
    ensures r.1.Err? <==> PathTaken(s.files, a)
    ensures r.1.Err? ==> r.0 == s && r.1.error == IntegrityError
    ensures r.1.Ok? ==> r.1.value.fields == a && r.1.value in r.0.files
  {
    if PathTaken(s.files, a) then (s, Err(IntegrityError))
    else
      match FindFirst(s.files, ByRemoteId(a.remoteId))
      case Some(i) =>
        var rec := FileRecord(s.files[i].id, a);
        assert s.files[i := rec][i] == rec;
        (IndexState(s.files[i := rec], s.nextId), Ok(rec))
      case None =>
        var rec := FileRecord(s.nextId, a);
        (IndexState(s.files + [rec], s.nextId + 1), Ok(rec))
  }

  /** `update_file_record`: build the attributes, then upsert them. */
  function UpsertItem(s: IndexState, item: DriveItem, path: Path, parentId: Option<int>, kind: Kind,
                      local: Option<Node>): (r: (IndexState, Result<FileRecord, Error>))
    ensures r.1.Err? ==> r.0 == s
    ensures r.1.Ok? ==> && r.1.value in r.0.files
                        && r.1.value.fields.remoteId == item.id
                        && r.1.value.fields.localPath == path
                        && r.1.value.fields.name == item.name
                        && r.1.value.fields.parentId == parentId
                        && r.1.value.fields.kind == kind
                        && r.1.value.fields.syncStatus == SYNCED
  {
    match PrepareFileAttributes(item, path, parentId, kind, local)
    case Err(e) => (s, Err(e))
    case Ok(a) => Upsert(s, a)
  }

  /** An existing row is overwritten in place: same position, same id, no row added,
      every other row untouched. */
  lemma UpsertOverwritesInPlace(s: IndexState, a: Attributes, i: nat)
    requires Valid(s)
    requires i < |s.files| && s.files[i].fields.remoteId == a.remoteId
    requires !PathTaken(s.files, a)
    ensures Upsert(s, a).1 == Ok(FileRecord(s.files[i].id, a))
    ensures Upsert(s, a).0 == IndexState(s.files[i := FileRecord(s.files[i].id, a)], s.nextId)
  {
    FindFileUnique(s, ByRemoteId(a.remoteId), i);
  }

  /** Without a row for the remote id, exactly one row is appended, with the next id. */
  lemma UpsertAppendsOne(s: IndexState, a: Attributes)
    requires forall j :: 0 <= j < |s.files| ==> s.files[j].fields.remoteId != a.remoteId
    requires !PathTaken(s.files, a)
    ensures Upsert(s, a).1 == Ok(FileRecord(s.nextId, a))
    ensures Upsert(s, a).0 == IndexState(s.files + [FileRecord(s.nextId, a)], s.nextId + 1)
  {
  }

  /** Rows for other remote ids are untouched, and no id disappears. */
  lemma UpsertKeepsOthers(s: IndexState, a: Attributes)
    ensures forall rec :: rec in s.files && rec.fields.remoteId != a.remoteId ==> rec in Upsert(s, a).0.files
    ensures Ids(s.files) <= Ids(Upsert(s, a).0.files)
    ensures |Upsert(s, a).0.files| >= |s.files|
  {
    var s' := Upsert(s, a).0;
    match FindFirst(s.files, ByRemoteId(a.remoteId))
    case None =>
    case Some(i) =>
      if !PathTaken(s.files, a) {
        forall rec | rec in s.files && rec.fields.remoteId != a.remoteId
          ensures rec in s'.files
        {
          var j :| 0 <= j < |s.files| && s.files[j] == rec;
          assert j != i && s'.files[j] == rec;
        }
        forall x | x in Ids(s.files) ensures x in Ids(s'.files) {
          var j :| 0 <= j < |s.files| && s.files[j].id as int == x;
          assert s'.files[j].id as int == x;
        }
      }
  }

  /** The upsert keeps every constraint of the `files` table, and keeps parent links
      resolvable when the new parent is. */
  lemma UpsertPreservesValid(s: IndexState, a: Attributes)
    requires Valid(s)
    ensures Valid(Upsert(s, a).0)
    ensures ParentsKnown(s.files) && ParentKnown(s.files, a.parentId) ==> ParentsKnown(Upsert(s, a).0.files)
  {
    var s' := Upsert(s, a).0;
    UpsertKeepsOthers(s, a);
    if !PathTaken(s.files, a) {
      match FindFirst(s.files, ByRemoteId(a.remoteId))
      case Some(i) =>
        forall j, k | 0 <= j < k < |s'.files|
          ensures s'.files[j].fields.localPath != s'.files[k].fields.localPath
        {
          if j == i || k == i {
            var o := if j == i then k else j;
            assert s.files[o].fields.remoteId != a.remoteId;
          }
        }
      case None =>
        forall j, k | 0 <= j < k < |s'.files|
          ensures s'.files[j].fields.localPath != s'.files[k].fields.localPath
        {
          if k == |s.files| {
            assert s.files[j].fields.remoteId != a.remoteId;
          }
        }
    }
    if ParentsKnown(s.files) && ParentKnown(s.files, a.parentId) {
      forall j | 0 <= j < |s'.files| ensures ParentKnown(s'.files, s'.files[j].fields.parentId) {
        if s'.files[j].fields.parentId != a.parentId {
          assert s'.files[j] in s.files;
        }
      }
    }
  }

  /** Identity stability: upserting the same remote id twice leaves exactly one row for it,
      with the id the first call gave it and every column from the second call. */
  lemma UpsertTwice(s: IndexState, a1: Attributes, a2: Attributes)
    requires Valid(s)
    requires a1.remoteId == a2.remoteId
    requires Upsert(s, a1).1.Ok? && Upsert(Upsert(s, a1).0, a2).1.Ok?
    ensures var s2 := Upsert(Upsert(s, a1).0, a2).0;
            exists k :: && 0 <= k < |s2.files|
                        && s2.files[k] == FileRecord(Upsert(s, a1).1.value.id, a2)
                        && forall j :: 0 <= j < |s2.files| && j != k ==> s2.files[j].fields.remoteId != a2.remoteId
    ensures |Upsert(Upsert(s, a1).0, a2).0.files| == |Upsert(s, a1).0.files|
  {
    var s1 := Upsert(s, a1).0;
    UpsertPreservesValid(s, a1);
    var rec := Upsert(s, a1).1.value;
    var k :| 0 <= k < |s1.files| && s1.files[k] == rec;
    UpsertOverwritesInPlace(s1, a2, k);
    var s2 := Upsert(s1, a2).0;
    forall j | 0 <= j < |s2.files| && j != k ensures s2.files[j].fields.remoteId != a2.remoteId {
      assert s2.files[j] == s1.files[j];
    }
  }

  /** Upserting the same attributes again changes nothing. */
  lemma UpsertIdempotent(s: IndexState, a: Attributes)
    requires Valid(s)
    requires Upsert(s, a).1.Ok?
    ensures Upsert(Upsert(s, a).0, a) == Upsert(s, a)
  {
    var s1 := Upsert(s, a).0;
    var rec := Upsert(s, a).1.value;
    UpsertPreservesValid(s, a);
    var k :| 0 <= k < |s1.files| && s1.files[k] == rec;
    UpsertOverwritesInPlace(s1, a, k);
    assert s1.files[k := FileRecord(s1.files[k].id, a)] == s1.files;
  }

  /** Upserts never remove or renumber rows, so `sync_history` references stay valid. */
  lemma UpsertKeepsHistoryValid(s: IndexState, a: Attributes, history: seq<SyncHistory>)
    requires HistoryValid(history, s.files)
    ensures HistoryValid(history, Upsert(s, a).0.files)
  {
    UpsertKeepsOthers(s, a);
  }

  /** `update_file_record` leaves the rows of every other remote id where they are. */
  lemma UpsertItemKeepsOthers(s: IndexState, item: DriveItem, path: Path, parentId: Option<int>,
                              kind: Kind, local: Option<Node>)
    ensures forall rec :: rec in s.files && rec.fields.remoteId != item.id ==>
              rec in UpsertItem(s, item, path, parentId, kind, local).0.files
    // every row afterwards was there before, or is the row written for `item` at `path`
    ensures forall rec :: rec in UpsertItem(s, item, path, parentId, kind, local).0.files ==>
              rec in s.files || (rec.fields.localPath == path && rec.fields.remoteId == item.id)
    // and that row is the one the upsert returns
    ensures var r := UpsertItem(s, item, path, parentId, kind, local);
            forall rec :: rec in r.0.files ==> rec in s.files || (r.1.Ok? && rec == r.1.value)
  {
    var prepared := PrepareFileAttributes(item, path, parentId, kind, local);
    if prepared.Ok? {
      UpsertKeepsOthers(s, prepared.value);
      var s' := Upsert(s, prepared.value).0;
      var written := Upsert(s, prepared.value).1;
      forall rec | rec in s'.files
        ensures rec in s.files || (written.Ok? && rec == written.value)
      {
        var k :| 0 <= k < |s'.files| && s'.files[k] == rec;
        if k < |s.files| && s'.files[k] != s.files[k] {
          var i := FindFirst(s.files, ByRemoteId(prepared.value.remoteId)).value;
          assert k == i;
        }
      }
    }
  }

  /** `update_file_record` succeeds whenever the attributes can be built and no row of
      another remote id holds the path. */
  lemma UpsertItemSucceeds(s: IndexState, item: DriveItem, path: Path, parentId: Option<int>, kind: Kind,
                           local: Option<Node>)
    requires !(kind == FileKind && !HasRemoteMd5(item) && local.Some? && local.value.Dir?)
    requires forall rec :: rec in s.files && rec.fields.localPath == path ==> rec.fields.remoteId == item.id
    ensures UpsertItem(s, item, path, parentId, kind, local).1.Ok?
  {
  }

  /** `update_file_record` keeps the index consistent when the parent it is given resolves,
      keeps every id, leaves rows for other remote ids alone, and the row it returns is in
      the table. */
  lemma UpsertItemKeepsConsistent(s: IndexState, item: DriveItem, path: Path, parentId: Option<int>,
                                  kind: Kind, local: Option<Node>)
    requires Consistent(s) && ParentKnown(s.files, parentId)
    ensures var r := UpsertItem(s, item, path, parentId, kind, local);
            && Consistent(r.0)
            && Ids(s.files) <= Ids(r.0.files)
            && (forall rec :: rec in s.files && rec.fields.remoteId != item.id ==> rec in r.0.files)
            && (r.1.Ok? ==> r.1.value.id as int in Ids(r.0.files))
  {
    var prepared := PrepareFileAttributes(item, path, parentId, kind, local);
    if prepared.Ok? {
      UpsertPreservesValid(s, prepared.value);
      UpsertKeepsOthers(s, prepared.value);
      var r := Upsert(s, prepared.value);
      if r.1.Ok? {
        var k :| 0 <= k < |r.0.files| && r.0.files[k] == r.1.value;
      }
    }
  }

  /** The `files` table behind one SQLAlchemy session. */
  class DatabaseManager {
    var files: seq<FileRecord>
    var nextId: nat

    function State(): IndexState
      reads this
    {
      IndexState(files, nextId)
    }

    /** A session on the stored `files.db`: the rows persisted by earlier runs, which the
        schema's constraints hold of (`init_db` creates the tables only when missing). */
    constructor (stored: IndexState)
      requires Valid(stored)
      ensures State() == stored && Valid(State())
    {
      files, nextId := stored.files, stored.nextId;
    }

    function GetFileByLocalPath(p: Path): (r: Option<FileRecord>)
      reads this
      ensures r.Some? ==> r.value in files && r.value.fields.localPath == p
      ensures r.None? ==> forall rec :: rec in files ==> rec.fields.localPath != p
    {
      FindFile(files, ByLocalPath(p))
    }

    function GetFileByRemoteId(id: string): (r: Option<FileRecord>)
      reads this
      ensures r.Some? ==> r.value in files && r.value.fields.remoteId == id
      ensures r.None? ==> forall rec :: rec in files ==> rec.fields.remoteId != id
    {
      FindFile(files, ByRemoteId(id))
    }

    /** `update_file_record`: overwrite the row for `item.id` column by column, or add one. */
    method UpdateFileRecord(item: DriveItem, path: Path, parentId: Option<int>, kind: Kind,
                            local: Option<Node>) returns (r: Result<FileRecord, Error>)
      modifies this
      ensures (State(), r) == UpsertItem(old(State()), item, path, parentId, kind, local)
    {
      var prepared := PrepareFileAttributes(item, path, parentId, kind, local);
      if prepared.Err? {
        return Err(prepared.error);
      }
      var attrs := prepared.value;
      if PathTaken(files, attrs) {
        return Err(IntegrityError);
      }
      var existing := FindFirst(files, ByRemoteId(attrs.remoteId));
      if existing.Some? {
        var i := existing.value;
        var rec := FileRecord(files[i].id, attrs);
        files := files[i := rec];
        r := Ok(rec);
      } else {
        var rec := FileRecord(nextId, attrs);
        files := files + [rec];
        nextId := nextId + 1;
        r := Ok(rec);
      }
    }
  }
}
