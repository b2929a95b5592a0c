/**
 * `UnaryPermission`: a global state together with the entries granted and
 * denied one by one. Read and write keep paths in their lists, net keeps
 * host strings. This module holds the queries on such a permission, the
 * changes a request or a revoke makes to it, and the non-escalation check
 * used when forking a worker.
 */
module UnaryPermissions {
  import opened Wrappers
  import opened PermissionStates
  import opened PathLists
  import opened HostLists

  datatype UnaryPermission<T> = UnaryPermission(globalState: PermissionState, grantedList: set<T>, deniedList: set<T>)

  /** `UnaryPermission::default()`: prompt, with both lists empty. */
  function DefaultUnary<T>(): UnaryPermission<T> {
    UnaryPermission(Prompt, {}, {})
  }

  /**
   * `UnaryPermission::check_fork`: the `child` permission must keep a global
   * state at least as strict, grant no entry the parent does not grant, and
   * deny every entry the parent denies.
   */
  function UnaryCheckFork<T>(parent: UnaryPermission<T>, child: UnaryPermission<T>): (r: Result<()>)
    ensures r.Ok? <==>
      && ToIndex(parent.globalState) <= ToIndex(child.globalState)
      && child.grantedList <= parent.grantedList
      && parent.deniedList <= child.deniedList
    ensures r.Err? ==> r.error == Escalation
  {
    var checked :- CheckFork(parent.globalState, child.globalState);
    if !(parent.grantedList >= child.grantedList) then Err(Escalation)
    else if !(parent.deniedList <= child.deniedList) then Err(Escalation)
    else Ok(checked)
  }

  /** Non-escalation between unary permissions is reflexive and transitive. */
  lemma UnaryCheckForkPreorder<T>(a: UnaryPermission<T>, b: UnaryPermission<T>, c: UnaryPermission<T>)
    ensures UnaryCheckFork(a, a).Ok?
    ensures UnaryCheckFork(a, b).Ok? && UnaryCheckFork(b, c).Ok? ==> UnaryCheckFork(a, c).Ok?
  {
  }

  // ---------------------------------------------------------------------
  // Queries
  // ---------------------------------------------------------------------

  /**
   * `query_read` and `query_write`: denied only when the global state is
   * denied and either no path is given or the path lies on the way to a
   * denied entry; otherwise granted when the global state is granted or an
   * allowed entry is the path or one of its ancestors; otherwise prompt.
   */
  function QueryPath(u: UnaryPermission<Path>, path: Option<Path>): (r: PermissionState)
    ensures path.None? ==> r == u.globalState
    ensures u.globalState == Granted ==> r == Granted
    ensures r == Denied <==> u.globalState == Denied && (path.None? || BlocklistMatches(path.value, u.deniedList))
    ensures path.Some? && r != Denied ==>
      (r == Granted <==> u.globalState == Granted || AllowlistMatches(path.value, u.grantedList))
  {
    if u.globalState.Denied? && (path.None? || BlocklistMatches(path.value, u.deniedList)) then
      Denied
    else if u.globalState.Granted? || (path.Some? && AllowlistMatches(path.value, u.grantedList)) then
      Granted
    else
      Prompt
  }

  /**
   * `query_net`: denied when the global state is denied OR the block list
   * names the host (so a block-list entry overrides a global grant, unlike
   * for paths); otherwise granted when the global state is granted or the
   * allow list names the host; otherwise prompt.
   */
  function QueryHost(u: UnaryPermission<string>, host: string, port: Option<Port>): (r: PermissionState)
    ensures r == Denied <==> u.globalState == Denied || CheckHostAndPortList(host, port, u.deniedList)
    ensures r == Granted <==>
      r != Denied && (u.globalState == Granted || CheckHostAndPortList(host, port, u.grantedList))
  {
    if u.globalState == Denied || CheckHostAndPortList(host, port, u.deniedList) then
      Denied
    else if u.globalState == Granted || CheckHostAndPortList(host, port, u.grantedList) then
      Granted
    else
      Prompt
  }

  /** For paths a global grant wins: a path on the way to a denied entry is still granted. */
  lemma GlobalGrantOverridesPathBlockList(u: UnaryPermission<Path>, path: Path)
    requires u.globalState == Granted && BlocklistMatches(path, u.deniedList)
    ensures QueryPath(u, Some(path)) == Granted
  {
  }

  /** For hosts the block list wins: a blocked host is denied even under a global grant. */
  lemma HostBlockListOverridesGlobalGrant(n: UnaryPermission<string>, host: string, port: Option<Port>)
    requires n.globalState == Granted && CheckHostAndPortList(host, port, n.deniedList)
    ensures QueryHost(n, host, port) == Denied
  {
  }

  /** What the URL parser yields: the host, if any, and the port or the scheme's default port. */
  datatype ParsedUrl = ParsedUrl(host: Option<string>, port: Option<Port>)

  /** A URL argument: its text and the parser's result for it (`None` when it does not parse). */
  datatype UrlInput = UrlInput(text: string, parsed: Option<ParsedUrl>) {

    predicate HasHost() {
      parsed.Some? && parsed.value.host.Some?
    }

    function Host(): string
      requires HasHost()
    {
      parsed.value.host.value
    }

    function PortOrDefault(): Option<Port>
      requires HasHost()
    {
      parsed.value.port
    }
  }

  /**
   * `query_net_url`: without a URL, the global state; a URL that does not
   * parse or has no host is an error; otherwise `query_net` on its host and
   * port.
   */
  function QueryUrl(u: UnaryPermission<string>, url: Option<UrlInput>): (r: Result<PermissionState>)
    ensures url.None? ==> r == Ok(u.globalState)
    ensures r.Err? <==> url.Some? && !url.value.HasHost()
    ensures r.Err? ==> r.error == (if url.value.parsed.None? then InvalidUrl else MissingHost)
    ensures url.Some? && url.value.HasHost() ==> r == Ok(QueryHost(u, url.value.Host(), url.value.PortOrDefault()))
  {
    match url
    case None => Ok(u.globalState)
    case Some(x) =>
      match x.parsed
      case None => Err(InvalidUrl)
      case Some(p) =>
        if p.host.None? then Err(MissingHost) else Ok(QueryHost(u, p.host.value, p.port))
  }

  // ---------------------------------------------------------------------
  // What requests and revokes do to a unary permission
  // ---------------------------------------------------------------------

  /** A yes to a request without a path: the allow list is cleared and everything is granted. */
  function GrantAll<T>(u: UnaryPermission<T>): UnaryPermission<T> {
    u.(globalState := Granted, grantedList := {})
  }

  /** A no to a request without a path, or to one with a URL: the global state becomes denied. */
  function DenyAll<T>(u: UnaryPermission<T>): UnaryPermission<T> {
    u.(globalState := Denied)
  }

  /** A revoke without a path: the allow list is cleared and a global grant falls back to prompt. */
  function RevokeAll<T>(u: UnaryPermission<T>): UnaryPermission<T> {
    u.(globalState := Revoked(u.globalState), grantedList := {})
  }

  /**
   * A yes to a request for `path`: the allowed entries below `path` are
   * dropped and `path` is allowed.
   */
  function GrantPath(u: UnaryPermission<Path>, path: Path): (v: UnaryPermission<Path>)
    ensures v.globalState == u.globalState && v.deniedList == u.deniedList
    ensures path in v.grantedList && v.grantedList <= u.grantedList + {path}
    ensures forall e :: e in v.grantedList && StartsWith(e, path) ==> e == path
    ensures forall e :: e in u.grantedList && !StartsWith(e, path) ==> e in v.grantedList
  {
    u.(grantedList := (set e | e in u.grantedList && !StartsWith(e, path)) + {path})
  }

  /**
   * A no to a request for `path`: the denied entries above `path` are
   * dropped, `path` is denied and the global state becomes denied.
   */
  function DenyPath(u: UnaryPermission<Path>, path: Path): (v: UnaryPermission<Path>)
    ensures v.globalState == Denied && v.grantedList == u.grantedList
    ensures path in v.deniedList && v.deniedList <= u.deniedList + {path}
    ensures forall e :: e in v.deniedList && StartsWith(path, e) ==> e == path
    ensures forall e :: e in u.deniedList && !StartsWith(path, e) ==> e in v.deniedList
  {
    u.(globalState := Denied, deniedList := (set e | e in u.deniedList && !StartsWith(path, e)) + {path})
  }

  /** A revoke of `path`: every allowed entry at or below `path` is dropped. */
  function RevokePath(u: UnaryPermission<Path>, path: Path): (v: UnaryPermission<Path>)
    ensures v.globalState == u.globalState && v.deniedList == u.deniedList
    ensures v.grantedList <= u.grantedList
    ensures forall e :: e in v.grantedList ==> !StartsWith(e, path)
    ensures forall e :: e in u.grantedList && !StartsWith(e, path) ==> e in v.grantedList
  {
    u.(grantedList := set e | e in u.grantedList && !StartsWith(e, path))
  }

  /** The effect of a request for read or write access once the user has answered. */
  function AnswerPath(u: UnaryPermission<Path>, path: Option<Path>, answer: bool): UnaryPermission<Path> {
    match path
    case Some(p) => if answer then GrantPath(u, p) else DenyPath(u, p)
    case None => if answer then GrantAll(u) else DenyAll(u)
  }

  /** The effect of a revoke of read or write access. */
  function RevokeAtPath(u: UnaryPermission<Path>, path: Option<Path>): UnaryPermission<Path> {
    match path
    case Some(p) => RevokePath(u, p)
    case None => RevokeAll(u)
  }

  /** Dropping the entries below `path` loses nothing: `path` itself covers them. */
  lemma GrantPathCoverage(u: UnaryPermission<Path>, path: Path, q: Path)
    ensures AllowlistMatches(q, GrantPath(u, path).grantedList) <==>
      AllowlistMatches(q, u.grantedList) || StartsWith(q, path)
  {
    var v := GrantPath(u, path);
    if AllowlistMatches(q, u.grantedList) {
      var e :| e in u.grantedList && StartsWith(q, e);
      if !(e in v.grantedList) {
        assert StartsWith(q, path);
      }
    }
    if StartsWith(q, path) {
      assert path in v.grantedList;
    }
  }

  /** Dropping the denied entries above `path` loses nothing: `path` lies below them. */
  lemma DenyPathCoverage(u: UnaryPermission<Path>, path: Path, q: Path)
    ensures BlocklistMatches(q, DenyPath(u, path).deniedList) <==>
      BlocklistMatches(q, u.deniedList) || StartsWith(path, q)
  {
    var v := DenyPath(u, path);
    if BlocklistMatches(q, u.deniedList) {
      var e :| e in u.deniedList && StartsWith(e, q);
      if !(e in v.deniedList) {
        assert StartsWith(path, q);
      }
    }
    if StartsWith(path, q) {
      assert path in v.deniedList;
    }
  }

  /**
   * After revoking `path`, a path at or below it is allowed by the list only
   * through an allowed entry strictly above `path`.
   */
  lemma RevokePathCoverage(u: UnaryPermission<Path>, path: Path, q: Path)
    requires StartsWith(q, path)
    ensures AllowlistMatches(q, RevokePath(u, path).grantedList) <==>
      exists e :: e in u.grantedList && StartsWith(path, e) && e != path
  {
    var v := RevokePath(u, path);
    if AllowlistMatches(q, v.grantedList) {
      var e :| e in v.grantedList && StartsWith(q, e);
      AncestorsComparable(e, path, q);
      assert e in u.grantedList && StartsWith(path, e) && e != path;
    }
    if exists e :: e in u.grantedList && StartsWith(path, e) && e != path {
      var e :| e in u.grantedList && StartsWith(path, e) && e != path;
      assert e in v.grantedList;
      assert StartsWith(q, e);
    }
  }

  /**
   * A request that prompts leaves the permission answering exactly what the
   * user said for the same path.
   */
  lemma AnswerPathSettles(u: UnaryPermission<Path>, path: Option<Path>, answer: bool)
    requires QueryPath(u, path) == Prompt
    ensures QueryPath(AnswerPath(u, path, answer), path) == if answer then Granted else Denied
  {
    if path.Some? {
      if answer {
        GrantPathCoverage(u, path.value, path.value);
      } else {
        DenyPathCoverage(u, path.value, path.value);
      }
    }
  }

  /** Granting a prompted path grants everything below it too. */
  lemma GrantPathCoversSubtree(u: UnaryPermission<Path>, path: Path, q: Path)
    requires QueryPath(u, Some(path)) == Prompt
    requires StartsWith(q, path)
    ensures QueryPath(GrantPath(u, path), Some(q)) == Granted
  {
    GrantPathCoverage(u, path, q);
    if BlocklistMatches(q, u.deniedList) {
      var e :| e in u.deniedList && StartsWith(e, q);
      assert StartsWith(e, path);
    }
  }

  /**
   * Denying `path` denies it and its ancestors, not what lies below it: a
   * path below is denied only if it was blocked already.
   */
  lemma DenyPathScope(u: UnaryPermission<Path>, path: Path, q: Path)
    ensures QueryPath(DenyPath(u, path), Some(q)) == Denied <==>
      BlocklistMatches(q, u.deniedList) || StartsWith(path, q)
  {
    DenyPathCoverage(u, path, q);
  }

  /** Revoking `path` leaves every path outside its subtree answering as before. */
  lemma RevokePathLeavesOthers(u: UnaryPermission<Path>, path: Path, q: Path)
    requires !StartsWith(q, path)
    ensures QueryPath(RevokePath(u, path), Some(q)) == QueryPath(u, Some(q))
  {
    var v := RevokePath(u, path);
    if AllowlistMatches(q, u.grantedList) {
      var e :| e in u.grantedList && StartsWith(q, e);
      assert !StartsWith(e, path);
      assert e in v.grantedList;
    }
    if AllowlistMatches(q, v.grantedList) {
      var e :| e in v.grantedList && StartsWith(q, e);
      assert e in u.grantedList;
    }
  }

  /** A revoke never makes a query more permissive, for any path or none. */
  lemma RevokeNeverWidens(u: UnaryPermission<Path>, path: Option<Path>, q: Option<Path>)
    ensures ToIndex(QueryPath(u, q)) <= ToIndex(QueryPath(RevokeAtPath(u, path), q))
  {
    var v := RevokeAtPath(u, path);
    if q.Some? && AllowlistMatches(q.value, v.grantedList) {
      var e :| e in v.grantedList && StartsWith(q.value, e);
      assert e in u.grantedList;
    }
  }

  /**
   * After revoking `path`, a path at or below it stays granted only through
   * a global grant or an allowed entry strictly above `path`.
   */
  lemma RevokedPathQuery(u: UnaryPermission<Path>, path: Path, q: Path)
    requires StartsWith(q, path)
    ensures QueryPath(RevokePath(u, path), Some(q)) == Granted <==>
      QueryPath(u, Some(q)) != Denied &&
      (u.globalState == Granted || exists e :: e in u.grantedList && StartsWith(path, e) && e != path)
  {
    RevokePathCoverage(u, path, q);
  }

  /** A forked child answers no path query more permissively than its parent. */
  lemma ForkPathNoEscalation(parent: UnaryPermission<Path>, child: UnaryPermission<Path>, path: Option<Path>)
    requires UnaryCheckFork(parent, child).Ok?
    ensures ToIndex(QueryPath(parent, path)) <= ToIndex(QueryPath(child, path))
  {
    if path.Some? {
      var p := path.value;
      if BlocklistMatches(p, parent.deniedList) {
        var e :| e in parent.deniedList && StartsWith(e, p);
        assert e in child.deniedList;
      }
      if AllowlistMatches(p, child.grantedList) {
        var e :| e in child.grantedList && StartsWith(p, e);
        assert e in parent.grantedList;
      }
    }
  }

  /** A forked child answers no host query more permissively than its parent. */
  lemma ForkHostNoEscalation(parent: UnaryPermission<string>, child: UnaryPermission<string>, host: string, port: Option<Port>)
    requires UnaryCheckFork(parent, child).Ok?
    ensures ToIndex(QueryHost(parent, host, port)) <= ToIndex(QueryHost(child, host, port))
  {
  }

  // ---------------------------------------------------------------------
  // Net entries
  // ---------------------------------------------------------------------

  /** The key `query_net` matches for a host and port: `host:port`, or the bare host without a port. */
  function NetEntry(host: string, port: Option<Port>): (e: string)
    ensures CheckHostAndPortList(host, port, {e})
    ensures port.None? ==> e == host
  {
    if port.Some? then HostPort(host, port.value) else host
  }

  /**
   * The entry for a given port covers that port of the host and no other,
   * unlike a bare host entry, which covers them all.
   */
  lemma NetEntryCoversOnlyItsPort(host: string, port: Port, p: Option<Port>)
    ensures CheckHostAndPortList(host, p, {NetEntry(host, Some(port))}) <==> p == Some(port)
  {
    PortEntryMatchesOnlyItsPort(host, port, p);
  }

  /** The key `request_net` and `revoke_net` put in and take out of the net lists, as written: the URL text. */
  function UrlEntryAsWritten(url: UrlInput): string {
    url.text
  }

  /** The key that a URL's own later query matches: the entry for its host and port. */
  function UrlEntry(url: UrlInput): string
    requires url.HasHost()
  {
    NetEntry(url.Host(), url.PortOrDefault())
  }

  function GrantEntry<T>(u: UnaryPermission<T>, entry: T): UnaryPermission<T> {
    u.(grantedList := u.grantedList + {entry})
  }

  function DenyEntry<T>(u: UnaryPermission<T>, entry: T): UnaryPermission<T> {
    u.(globalState := Denied, deniedList := u.deniedList + {entry})
  }

  function RevokeEntry<T>(u: UnaryPermission<T>, entry: T): UnaryPermission<T> {
    u.(grantedList := u.grantedList - {entry})
  }

  /** The effect of a request for net access once the user has answered. */
  function AnswerUrl(u: UnaryPermission<string>, url: Option<UrlInput>, answer: bool): UnaryPermission<string>
    requires url.Some? ==> url.value.HasHost()
  {
    match url
    case Some(x) => if answer then GrantEntry(u, UrlEntry(x)) else DenyEntry(u, UrlEntry(x))
    case None => if answer then GrantAll(u) else DenyAll(u)
  }

  /** The effect of a revoke of net access; a URL without a host names no entry. */
  function RevokeAtUrl(u: UnaryPermission<string>, url: Option<UrlInput>): UnaryPermission<string> {
    match url
    case Some(x) => if x.HasHost() then RevokeEntry(u, UrlEntry(x)) else u
    case None => RevokeAll(u)
  }

  /**
   * Keyed by the URL text, a granted URL is not seen by its own next query:
   * granting `http://127.0.0.1:8000` leaves `127.0.0.1` on port 8000 at prompt.
   */
  lemma UrlEntryAsWrittenMissesGrant()
    ensures var url := UrlInput("http://127.0.0.1:8000", Some(ParsedUrl(Some("127.0.0.1"), Some(8000))));
      && QueryUrl(DefaultUnary(), Some(url)) == Ok(Prompt)
      && QueryUrl(GrantEntry(DefaultUnary(), UrlEntryAsWritten(url)), Some(url)) == Ok(Prompt)
  {
    assert HostPort("127.0.0.1", 8000) == "127.0.0.1:8000" by {
      assert DecimalString(8000) == "8000";
    }
  }

  /**
   * Keyed by the URL text, revoking a URL leaves a `host:port` grant in place:
   * after revoking `http://127.0.0.1:8000` the host is still granted on port 8000.
   */
  lemma UrlEntryAsWrittenMissesRevoke()
    ensures var url := UrlInput("http://127.0.0.1:8000", Some(ParsedUrl(Some("127.0.0.1"), Some(8000))));
      var u := UnaryPermission(Prompt, {"127.0.0.1:8000"}, {});
      QueryUrl(RevokeEntry(u, UrlEntryAsWritten(url)), Some(url)) == Ok(Granted)
  {
    assert HostPort("127.0.0.1", 8000) == "127.0.0.1:8000" by {
      assert DecimalString(8000) == "8000";
    }
  }

  /**
   * Keyed by host and port, a request that prompts leaves the permission
   * answering exactly what the user said for the same URL.
   */
  lemma AnswerUrlSettles(u: UnaryPermission<string>, url: Option<UrlInput>, answer: bool)
    requires QueryUrl(u, url) == Ok(Prompt)
    ensures url.Some? ==> url.value.HasHost()
    ensures QueryUrl(AnswerUrl(u, url, answer), url) == Ok(if answer then Granted else Denied)
  {
  }

  /**
   * Keyed by host and port, after revoking a URL its host and port stay
   * granted only through a global grant or, when a port is given, a grant of
   * the bare host.
   */
  lemma RevokedUrlQuery(u: UnaryPermission<string>, url: UrlInput)
    requires url.HasHost()
    ensures QueryUrl(RevokeAtUrl(u, Some(url)), Some(url)) == Ok(Granted) <==>
      QueryUrl(u, Some(url)) != Ok(Denied) &&
      (u.globalState == Granted || (url.PortOrDefault().Some? && url.Host() in u.grantedList))
  {
    var h, p := url.Host(), url.PortOrDefault();
    if p.Some? {
      assert |HostPort(h, p.value)| > |h|;
    }
  }
}
