/**
 * The access gate of assets/member-lock.js: a page under a locked
 * collection path sends a visitor who is not logged in to the login page,
 * carrying the page they asked for as the return address.
 */
module MemberLock {
  import opened Text

  /** The collection paths behind the gate. */
  const LockedPaths: seq<string> := ["/collections/sell-price-tier-1"]

  const LoginPrefix: string := "/account/login?return_url="

  /** `replace(/\/+$/, "")`: the path without its trailing slashes. */
  function StripTrailingSlashes(p: string): (r: string)
    ensures |r| <= |p| && r == p[..|r|]
    ensures r == [] || r[|r| - 1] != '/'
    ensures forall i | |r| <= i < |p| :: p[i] == '/'
  {
    if p != [] && p[|p| - 1] == '/' then StripTrailingSlashes(p[..|p| - 1]) else p
  }

  /** `n` slashes. */
  function Slashes(n: nat): (r: string)
    ensures |r| == n && forall i | 0 <= i < n :: r[i] == '/'
  {
    if n == 0 then [] else Slashes(n - 1) + ['/']
  }

  /** A path whose `m`-character prefix does not end in `/` and whose rest is all slashes strips to that prefix. */
  lemma {:induction false} StripUpTo(s: string, m: nat)
    requires m <= |s| && (m == 0 || s[m - 1] != '/')
    requires forall i | m <= i < |s| :: s[i] == '/'
    ensures StripTrailingSlashes(s) == s[..m]
    decreases |s|
  {
    if |s| > m {
      var q := s[..|s| - 1];
      assert q[..m] == s[..m];
      StripUpTo(q, m);
    } else {
      assert s[..m] == s;
    }
  }

  /** Slashes added at the end of a path make no difference once they are stripped. */
  lemma {:induction false} StripExtraSlashes(p: string, n: nat)
    ensures StripTrailingSlashes(p + Slashes(n)) == StripTrailingSlashes(p)
  {
    var r := StripTrailingSlashes(p);
    var s := p + Slashes(n);
    assert s[..|r|] == r;
    StripUpTo(s, |r|);
  }

  /** `path === p || path.indexOf(p + "/") === 0`. */
  predicate LockedBy(path: string, entry: string) {
    path == entry || StartsWith(path, entry + "/")
  }

  /** `lockedPaths.some(...)`: the path is one of the entries or lies below one. */
  function IsLocked(path: string, locked: seq<string>): (r: bool)
    ensures r <==> exists k | 0 <= k < |locked| :: LockedBy(path, locked[k])
  {
    if locked == [] then false
    else
      assert forall k | 1 <= k < |locked| :: locked[1..][k - 1] == locked[k];
      LockedBy(path, locked[0]) || IsLocked(path, locked[1..])
  }

  /** What the script does with the page: nothing, or a redirect to `target`. */
  datatype Decision = Stay | Redirect(target: string)

  /**
   * The gate: the trailing slashes of the pathname are stripped; an
   * unlocked path and a path under `/account` are left alone; a locked path
   * redirects a visitor who is not logged in to the login page, whose
   * `return_url` is `encode` (the browser's `encodeURIComponent`) of the
   * original pathname and query string.
   */
  function Decide(locked: seq<string>, pathname: string, search: string, loggedIn: bool, encode: string -> string): (d: Decision)
    ensures d.Redirect? <==>
      && IsLocked(StripTrailingSlashes(pathname), locked)
      && !StartsWith(StripTrailingSlashes(pathname), "/account")
      && !loggedIn
    ensures d.Redirect? ==> d.target == LoginPrefix + encode(pathname + search)
  {
    var path := StripTrailingSlashes(pathname);
    if !IsLocked(path, locked) then Stay
    else if StartsWith(path, "/account") then Stay
    else if !loggedIn then Redirect(LoginPrefix + encode(pathname + search))
    else Stay
  }

  /** The gate as the theme configures it. */
  function Gate(pathname: string, search: string, loggedIn: bool, encode: string -> string): Decision {
    Decide(LockedPaths, pathname, search, loggedIn, encode)
  }

  /** A page under `/account` is never redirected, whatever is locked: the login page cannot loop. */
  lemma {:induction false} AccountNeverRedirects(locked: seq<string>, pathname: string, search: string, loggedIn: bool, encode: string -> string)
    requires StartsWith(pathname, "/account")
    ensures Decide(locked, pathname, search, loggedIn, encode) == Stay
  {
    var path := StripTrailingSlashes(pathname);
    assert pathname[7] == 't';
    assert |path| >= 8 && path[..8] == pathname[..8];
  }

  /** A logged-in visitor is never redirected. */
  lemma {:induction false} LoggedInStays(locked: seq<string>, pathname: string, search: string, encode: string -> string)
    ensures Decide(locked, pathname, search, true, encode) == Stay
  {
  }

  /** The locked collection page, with or without trailing slashes, sends an anonymous visitor to log in. */
  lemma {:induction false} LockedCollectionRedirects(n: nat, search: string, encode: string -> string)
    ensures var pathname := "/collections/sell-price-tier-1" + Slashes(n);
      Gate(pathname, search, false, encode) == Redirect(LoginPrefix + encode(pathname + search))
  {
    var p := "/collections/sell-price-tier-1";
    StripExtraSlashes(p, n);
    assert p[|p| - 1] == '1';
    assert StripTrailingSlashes(p) == p;
    assert LockedBy(p, LockedPaths[0]);
    assert p[1] == 'c';
  }

  /** A page below the locked collection is locked too. */
  lemma {:induction false} SubpageRedirects(rest: string, search: string, encode: string -> string)
    requires rest == [] || rest[|rest| - 1] != '/'
    ensures var pathname := "/collections/sell-price-tier-1/" + rest;
      Gate(pathname, search, false, encode) == Redirect(LoginPrefix + encode(pathname + search))
  {
    var pathname := "/collections/sell-price-tier-1/" + rest;
    if rest == [] {
      LockedCollectionRedirects(1, search, encode);
      assert "/collections/sell-price-tier-1" + Slashes(1) == pathname;
    } else {
      assert pathname[|pathname| - 1] == rest[|rest| - 1];
      assert StripTrailingSlashes(pathname) == pathname;
      assert StartsWith(pathname, LockedPaths[0] + "/");
      assert pathname[1] == 'c';
    }
  }

  /** A sibling collection whose name merely begins with the locked one is not locked. */
  lemma {:induction false} SiblingNotLocked(search: string, loggedIn: bool, encode: string -> string)
    ensures Gate("/collections/sell-price-tier-1x", search, loggedIn, encode) == Stay
  {
    var p := "/collections/sell-price-tier-1x";
    assert p[|p| - 1] == 'x';
    assert StripTrailingSlashes(p) == p;
    var e := LockedPaths[0] + "/";
    assert p[|e| - 1] == 'x' && e[|e| - 1] == '/';
    assert !LockedBy(p, LockedPaths[0]);
  }
}
