/** The filesystem effects of the core: `make_symlink` (apply.py:60-66) and
    the removal that `config` performs in clean mode (apply.py:170-174).
    The filesystem is a map from path strings to what lies there; `rmtree`
    removes a directory and every path inside it. */
module Sync {
  import opened Faults
  import opened OsPath

  /** What a path names: a regular file, a real directory, a symbolic link
      (never followed here) or anything else, such as a FIFO or a socket. */
  datatype Node = File | Dir | Link(target: string) | Special

  type FsMap = map<string, Node>

  /** `p` holds something that neither `unlink` nor `rmtree` is applied to. */
  predicate Blocks(m: FsMap, p: string) {
    p in m && m[p].Special?
  }

  /** The state after clearing `p`: a link or a file is unlinked, a directory
      is removed with everything inside it, anything else stays, and a
      missing path needs nothing. */
  function Removed(m: FsMap, p: string): (r: FsMap)
    ensures forall q :: q in r ==> q in m && r[q] == m[q]
    ensures forall q :: q in m && !Within(q, p) ==> q in r
    ensures p !in m || Blocks(m, p) ==> r == m
    ensures p in m && !Blocks(m, p) ==> p !in r
    ensures p in m && m[p].Dir? ==> forall q :: Within(q, p) ==> q !in r
    ensures p in m && !m[p].Dir? ==> forall q :: q in m && q != p ==> q in r
  {
    if p !in m then m
    else
      match m[p]
      case File => m - {p}
      case Link(_) => m - {p}
      case Dir => map q | q in m && !Within(q, p) :: m[q]
      case Special => m
  }

  /** `make_symlink(target, l)`: clear `l`, then create the link, which fails
      when something is still in the way. */
  function Linking(m: FsMap, l: string, target: string): (r: Result<FsMap>)
    ensures r.Err? <==> Blocks(m, l)
    ensures r.Err? ==> r.fault == LinkBlocked(l)
    ensures r.Ok? ==> l in r.value && r.value[l] == Link(target)
    ensures r.Ok? ==> forall q :: q in m && !Within(q, l) ==> q in r.value && r.value[q] == m[q]
    ensures r.Ok? ==> forall q :: q in r.value && q != l ==>
      q in m && r.value[q] == m[q] && !(l in m && m[l].Dir? && Below(q, l))
    ensures r.Ok? && !(l in m && m[l].Dir?) ==> forall q :: q in m && q != l ==> q in r.value
  {
    if Blocks(m, l) then Err(LinkBlocked(l)) else Ok(Removed(m, l)[l := Link(target)])
  }

  /** Clearing twice clears no more than clearing once. */
  lemma RemoveIdempotent(m: FsMap, p: string)
    ensures Removed(Removed(m, p), p) == Removed(m, p)
  {
    var r := Removed(m, p);
    if p in m && !Blocks(m, p) {
      assert p !in r;
    }
  }

  /** Linking again to the same target changes nothing: re-running the
      create step is harmless. */
  lemma LinkIdempotent(m: FsMap, l: string, target: string)
    requires Linking(m, l, target).Ok?
    ensures Linking(Linking(m, l, target).value, l, target) == Linking(m, l, target)
  {
    var once := Linking(m, l, target).value;
    assert once[l] == Link(target);
    assert Removed(once, l) == once - {l};
    assert (once - {l})[l := Link(target)] == once;
  }

  /** Linking a path that already holds the same link changes nothing. */
  lemma LinkInPlace(m: FsMap, l: string, target: string)
    requires l in m && m[l] == Link(target)
    ensures Linking(m, l, target) == Ok(m)
  {
    assert Removed(m, l) == m - {l};
    assert (m - {l})[l := Link(target)] == m;
  }

  /** Cleaning after a link leaves what cleaning alone would have left. */
  lemma CleanAfterLink(m: FsMap, l: string, target: string)
    requires Linking(m, l, target).Ok?
    ensures Removed(Linking(m, l, target).value, l) == Removed(m, l)
    ensures l !in Removed(Linking(m, l, target).value, l)
  {
    var cleared := Removed(m, l);
    assert l !in cleared by {
      if l in m {
        assert !Blocks(m, l);
      }
    }
    var once := Linking(m, l, target).value;
    assert once == cleared[l := Link(target)];
    assert Removed(once, l) == once - {l};
    assert once - {l} == cleared;
  }

  /** Linking after a clean gives the same state as linking alone. */
  lemma LinkAfterClean(m: FsMap, l: string, target: string)
    ensures Linking(Removed(m, l), l, target) == Linking(m, l, target)
  {
    if !Blocks(m, l) {
      RemoveIdempotent(m, l);
    }
  }

  /** The filesystem as the script sees it. */
  class FileSystem {
    var nodes: FsMap

    constructor (initial: FsMap)
      ensures nodes == initial
    {
      nodes := initial;
    }

    /** The branches shared by make_symlink (apply.py:61-65) and the clean
        mode of `config` (apply.py:170-174): `os.path.lexists` and
        `Path.is_symlink` see a dangling link as well, `isfile` a file,
        `isdir` a real directory. */
    method Clear(p: string)
      modifies this
      ensures nodes == Removed(old(nodes), p)
    {
      if p in nodes {
        match nodes[p]
        case Link(_) =>
          nodes := nodes - {p};
        case File =>
          nodes := nodes - {p};
        case Dir =>
          nodes := map q | q in nodes && !Within(q, p) :: nodes[q];
        case Special =>
      }
    }

    /** `make_symlink(target, linkName)`; a failure leaves every path as it was. */
    method MakeSymlink(target: string, linkName: string) returns (failure: Option<Fault>)
      modifies this
      ensures Linking(old(nodes), linkName, target).Err? ==>
        failure == Some(Linking(old(nodes), linkName, target).fault) && nodes == old(nodes)
      ensures Linking(old(nodes), linkName, target).Ok? ==>
        failure == None && nodes == Linking(old(nodes), linkName, target).value
    {
      Clear(linkName);
      if linkName in nodes {
        return Some(LinkBlocked(linkName));
      }
      nodes := nodes[linkName := Link(target)];
      failure := None;
    }
  }
}
