/** The parts of Python's `os.path` (POSIX flavour) that the core relies on:
    home-directory expansion, joining, and the lexical notion of "inside a
    directory" under which `shutil.rmtree` removes entries. */
module OsPath {

  /** `s.rstrip('/')`. */
  function RStripSlash(s: string): (r: string)
    ensures |r| <= |s| && r == s[..|r|]
    ensures r == [] || r[|r| - 1] != '/'
    ensures forall i :: |r| <= i < |s| ==> s[i] == '/'
  {
    if s != [] && s[|s| - 1] == '/' then RStripSlash(s[..|s| - 1]) else s
  }

  /** Whether `expanduser` replaces the start of `p` with the current user's
      home: `p` is `~` alone or starts with `~/`. */
  predicate RefersToHome(p: string) {
    |p| > 0 && p[0] == '~' && (|p| == 1 || p[1] == '/')
  }

  /** `os.path.expanduser(p)` where `home` is the value of `$HOME`. A `~user`
      prefix is left as it is. */
  function ExpandUser(home: string, p: string): string {
    if RefersToHome(p) then
      var expanded := RStripSlash(home) + p[1..];
      if expanded == [] then "/" else expanded
    else
      p
  }

  /** `os.path.join(root, name)`. */
  function Join(root: string, name: string): string {
    if |name| > 0 && name[0] == '/' then name
    else if root == [] || root[|root| - 1] == '/' then root + name
    else root + "/" + name
  }

  /** `q` names an entry strictly inside the directory `root`. */
  predicate Below(q: string, root: string) {
    |q| > |root| && q[..|root|] == root && q[|root|] == '/'
  }

  /** `q` is `root` itself or lies inside it: what `shutil.rmtree(root)` removes. */
  predicate Within(q: string, root: string) {
    q == root || Below(q, root)
  }

  /** Two paths under the same prefix whose remainders differ at a position
      both have: neither is the other or lies inside it. */
  lemma ApartAfterPrefix(h: string, s: string, t: string, k: int)
    requires 0 <= k < |s| && k < |t| && s[k] != t[k]
    ensures !Within(h + s, h + t) && !Within(h + t, h + s)
  {
    assert (h + s)[|h| + k] == s[k] && (h + t)[|h| + k] == t[k];
    if |h + s| > |h + t| {
      assert (h + s)[..|h + t|][|h| + k] == s[k];
    }
    if |h + t| > |h + s| {
      assert (h + t)[..|h + s|][|h| + k] == t[k];
    }
  }

  /** Expansion introduces no character that is in neither `home` nor `p`. */
  lemma ExpandUserChars(home: string, p: string, c: char)
    requires c != '/' && c !in home && c !in p
    ensures c !in ExpandUser(home, p)
  {
    if RefersToHome(p) {
      var h := RStripSlash(home);
      assert forall i :: 0 <= i < |h| ==> h[i] == home[i];
      assert forall i :: 1 <= i < |p| ==> p[1..][i - 1] == p[i];
    }
  }

  /** A path that does not start with `~` is returned untouched. */
  lemma ExpandUserIdentity(home: string, p: string)
    requires p == [] || p[0] != '~'
    ensures ExpandUser(home, p) == p
  {
  }

  /** An absolute name is joined as itself; a relative one lands under `root`. */
  lemma JoinPlacesUnderRoot(root: string, name: string)
    requires root != [] && root[|root| - 1] != '/'
    ensures |name| > 0 && name[0] == '/' ==> Join(root, name) == name
    ensures (name == [] || name[0] != '/') ==> Below(Join(root, name), root)
  {
  }
}
