/**
 * The Drive side as the syncers see it: item metadata, timestamps, the remote tree a
 * listing walk observes, and the requests the syncers send.
 */
module Remote {
  import opened Wrappers

  /** A parsed timestamp: its wall-clock reading in ticks of one microsecond (Drive's
      millisecond readings are whole multiples of it) and its UTC offset, if any. */
  datatype DateTime = DateTime(wall: int, offset: Option<int>)

  /** A timestamp string as Drive sends it, together with the value the date parser gives
      for it; the parser itself is not part of this model. */
  datatype Stamp = Stamp(text: string, parsed: DateTime)

  /** `_parse_datetime`: a missing or empty string gives None, any other its parsed value. */
  function ParseDateTime(s: Option<Stamp>): (r: Option<DateTime>)
    ensures r.None? <==> s.None? || s.value.text == ""
    ensures r.Some? ==> r.value == s.value.parsed
  {
    if s.None? || s.value.text == "" then None else Some(s.value.parsed)
  }

  /** `replace(tzinfo=None)`: the offset is dropped, the wall-clock reading kept unconverted. */
  function Naive(d: DateTime): (r: int)
    ensures r == d.wall
  {
    d.wall
  }

  /** The keys of a Drive item dictionary that the index reads. */
  datatype DriveItem = DriveItem(
    id: string,
    name: string,
    modifiedTime: Option<Stamp>,
    md5Checksum: Option<string>,
    size: Option<nat>)

  /** `int(item.get("size", 0))`. */
  function SizeOrZero(item: DriveItem): (r: nat)
    ensures item.size.None? ==> r == 0
    ensures item.size.Some? ==> r == item.size.value
  {
    if item.size.Some? then item.size.value else 0
  }

  const FOLDER_MIME := "application/vnd.google-apps.folder"

  /** The requests that fetch content from Drive; every other request changes or reads
      Drive metadata. */
  predicate Fetches(req: Request)
  {
    req.GetMedia? || req.ExportMedia?
  }

  /** A listed item with the listing of its own children (used only for folders). */
  datatype RemoteNode = RemoteNode(item: DriveItem, mimeType: string, children: seq<RemoteNode>)

  /** The Drive calls the syncers make, besides listing. */
  datatype Request =
    | CreateFolder(name: string, parent: string)
    | GetItem(id: string)
    | CreateFile(name: string, parent: string)
    | UpdateFile(id: string)
    | GetMedia(id: string)
    | ExportMedia(id: string, mimeType: string)

  /** What a call gives back: a failure, an item resource restricted to the requested
      fields (id, name, modifiedTime), or downloaded content. */
  datatype Reply =
    | Failed
    | Resource(id: string, name: string, modifiedTime: Option<Stamp>)
    | Content(size: nat, digest: string)

  /** The item dictionary a resource reply gives: no `size`, no `md5Checksum`, since the
      syncers never ask for those fields on create, get or update. */
  function AsItem(r: Reply): (item: DriveItem)
    requires r.Resource?
    ensures item.size.None? && item.md5Checksum.None?
    ensures item.id == r.id && item.name == r.name && item.modifiedTime == r.modifiedTime
  {
    DriveItem(r.id, r.name, r.modifiedTime, None, None)
  }

  /** The Drive service: every call is logged in `sent`; what the store answers to the
      n-th call is the fixed, otherwise unconstrained function `reply`. */
  class DriveService {
    var sent: seq<Request>
    const reply: (nat, Request) -> Reply

    constructor (reply: (nat, Request) -> Reply)
      ensures sent == [] && this.reply == reply
    {
      sent := [];
      this.reply := reply;
    }

    method Call(req: Request) returns (r: Reply)
      modifies this
      ensures sent == old(sent) + [req]
      ensures r == reply(|old(sent)|, req)
    {
      r := reply(|sent|, req);
      sent := sent + [req];
    }
  }
}
