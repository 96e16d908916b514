/**
 * The local filesystem as the syncers see it: paths, `stat` results, file digests,
 * directory creation and file writes.
 */
module LocalFs {
  import opened Wrappers

  /** A path as its list of components; `p / name` is `p + [name]`, the name taken as one
      component (a name holding "/" or equal to ".." is not split or resolved). */
  type Path = seq<string>

  /** What `stat()` reports: `st_size` and `st_mtime`, the latter as naive UTC ticks of one
      microsecond, the resolution `datetime` keeps. */
  datatype Stat = Stat(size: nat, mtime: int)

  /** A filesystem entry; a regular file carries the MD5 hex digest of its bytes. */
  datatype Node = Dir(stat: Stat) | File(stat: Stat, digest: string)

  /** MD5 of zero bytes: the digest of a file that `open("wb")` created and nothing filled. */
  const EMPTY_DIGEST := "d41d8cd98f00b204e9800998ecf8427e"

  /** `path.name`: the last component, "" for the empty path. */
  function Name(p: Path): string
  {
    if p == [] then "" else p[|p| - 1]
  }

  /** `path.parent`: all but the last component; the empty path is its own parent. */
  function Parent(p: Path): (r: Path)
    ensures p != [] ==> r + [Name(p)] == p
  {
    if p == [] then [] else p[..|p| - 1]
  }

  /** `b` lies strictly inside directory `a`. */
  predicate Below(a: Path, b: Path)
  {
    |a| < |b| && b[..|a|] == a
  }

  lemma BelowTransitive(a: Path, b: Path, c: Path)
    requires Below(a, b) && Below(b, c)
    ensures Below(a, c)
  {
    assert c[..|b|][..|a|] == c[..|a|];
  }

  /** `folder / name` lies inside `folder` and has it as parent, `name` being one component. */
  lemma ChildIsBelow(folder: Path, name: string)
    ensures Below(folder, folder + [name])
    ensures Parent(folder + [name]) == folder
  {
    assert (folder + [name])[..|folder|] == folder;
  }

  /** The whole disk as a value: its entries, the clock that stamps writes, and the
      `st_size` the filesystem reports for a directory. */
  datatype Disk = Disk(nodes: map<Path, Node>, clock: int, dirSize: nat)

  function Lookup(d: Disk, p: Path): (r: Option<Node>)
    ensures r.Some? <==> p in d.nodes
  {
    if p in d.nodes then Some(d.nodes[p]) else None
  }

  /** The `stat()` of a path, or None when it does not exist. */
  function StatOf(n: Option<Node>): Option<Stat>
  {
    if n.Some? then Some(n.value.stat) else None
  }

  /** `mkdir(parents=True, exist_ok=True)`: None stands for FileExistsError. */
  function MakeDir(d: Disk, p: Path): (r: Option<Disk>)
    ensures r.None? <==> Lookup(d, p).Some? && Lookup(d, p).value.File?
    ensures r.Some? ==> Lookup(r.value, p).Some? && Lookup(r.value, p).value.Dir?
    ensures r.Some? ==> r.value.dirSize == d.dirSize
    ensures r.Some? ==> forall q :: q != p ==> Lookup(r.value, q) == Lookup(d, q)
    ensures r.Some? && p in d.nodes ==> r.value == d
  {
    if p in d.nodes then
      if d.nodes[p].File? then None else Some(d)
    else
      Some(Disk(d.nodes[p := Dir(Stat(d.dirSize, d.clock))], d.clock + 1, d.dirSize))
  }

  /** Writing `size` bytes with digest `digest` to a path that is not a directory. */
  function WriteFile(d: Disk, p: Path, size: nat, digest: string): (r: Disk)
    ensures Lookup(r, p) == Some(File(Stat(size, d.clock), digest))
    ensures forall q :: q != p ==> Lookup(r, q) == Lookup(d, q)
    ensures r.dirSize == d.dirSize && r.clock > d.clock
  {
    Disk(d.nodes[p := File(Stat(size, d.clock), digest)], d.clock + 1, d.dirSize)
  }

  /** The local disk, changed in place by the remote-to-local pass. */
  class LocalDisk {
    var nodes: map<Path, Node>
    var clock: int
    const dirSize: nat

    function State(): Disk
      reads this
    {
      Disk(nodes, clock, dirSize)
    }

    constructor (nodes: map<Path, Node>, clock: int, dirSize: nat)
      ensures State() == Disk(nodes, clock, dirSize)
    {
      this.nodes, this.clock, this.dirSize := nodes, clock, dirSize;
    }

    function Get(p: Path): (r: Option<Node>)
      reads this
      ensures r == Lookup(State(), p)
    {
      if p in nodes then Some(nodes[p]) else None
    }

    method MkDir(p: Path) returns (ok: bool)
      modifies this
      ensures ok == MakeDir(old(State()), p).Some?
      ensures State() == if ok then MakeDir(old(State()), p).value else old(State())
    {
      if p in nodes {
        ok := nodes[p].Dir?;
      } else {
        nodes := nodes[p := Dir(Stat(dirSize, clock))];
        clock := clock + 1;
        ok := true;
      }
    }

    method Write(p: Path, size: nat, digest: string)
      modifies this
      ensures State() == WriteFile(old(State()), p, size, digest)
    {
      nodes := nodes[p := File(Stat(size, clock), digest)];
      clock := clock + 1;
    }
  }
}
