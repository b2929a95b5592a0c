/**
 * The permission record of a Deno process or worker. Queries and checks
 * read it; requests and revokes change it in place; fork builds the record
 * of a child worker after checking that the child asks for nothing more
 * than its parent has.
 *
 * Paths arrive already resolved, the user's answer to a prompt is the
 * `answer` argument, and a URL arrives together with what the URL parser
 * makes of it.
 */
module DenoPermissions {
  import opened Wrappers
  import opened PermissionStates
  import opened PathLists
  import opened HostLists
  import opened UnaryPermissions

  class Permissions {
    var read: UnaryPermission<Path>
    var write: UnaryPermission<Path>
    var net: UnaryPermission<string>
    var env: PermissionState
    var run: PermissionState
    var plugin: PermissionState
    var hrtime: PermissionState

    /** The struct literal: a record holding exactly the given components. */
    constructor (read: UnaryPermission<Path>, write: UnaryPermission<Path>, net: UnaryPermission<string>,
                 env: PermissionState, run: PermissionState, plugin: PermissionState, hrtime: PermissionState)
      ensures this.read == read && this.write == write && this.net == net
      ensures this.env == env && this.run == run && this.plugin == plugin && this.hrtime == hrtime
    {
      this.read, this.write, this.net := read, write, net;
      this.env, this.run, this.plugin, this.hrtime := env, run, plugin, hrtime;
    }

    /** `Permissions::allow_all`: every permission granted globally, every list empty. */
    constructor AllowAll()
      ensures read == UnaryPermission(Granted, {}, {}) && write == UnaryPermission(Granted, {}, {})
      ensures net == UnaryPermission(Granted, {}, {})
      ensures env == Granted && run == Granted && plugin == Granted && hrtime == Granted
      ensures forall path :: QueryRead(path) == Granted && QueryWrite(path) == Granted
      ensures forall host, port :: QueryNet(host, port) == Granted
    {
      read := UnaryPermission(Granted, {}, {});
      write := UnaryPermission(Granted, {}, {});
      net := UnaryPermission(Granted, {}, {});
      env, run, plugin, hrtime := Granted, Granted, Granted, Granted;
    }

    // -------------------------------------------------------------------
    // Queries
    // -------------------------------------------------------------------

    function QueryRead(path: Option<Path>): PermissionState
      reads this
    {
      QueryPath(read, path)
    }

    function QueryWrite(path: Option<Path>): PermissionState
      reads this
    {
      QueryPath(write, path)
    }

    function QueryNet(host: string, port: Option<Port>): PermissionState
      reads this
    {
      QueryHost(net, host, port)
    }

    function QueryNetUrl(url: Option<UrlInput>): Result<PermissionState>
      reads this
    {
      QueryUrl(net, url)
    }

    function QueryEnv(): PermissionState
      reads this
    {
      env
    }

    function QueryRun(): PermissionState
      reads this
    {
      run
    }

    function QueryPlugin(): PermissionState
      reads this
    {
      plugin
    }

    function QueryHrtime(): PermissionState
      reads this
    {
      hrtime
    }

    // -------------------------------------------------------------------
    // Requests: settle a pending prompt with the user's answer
    // -------------------------------------------------------------------

    /**
     * `request_read`: a query that does not prompt is returned and nothing
     * changes; otherwise the answer is recorded and returned, and the same
     * query answers it from then on.
     */
    method RequestRead(path: Option<Path>, answer: bool) returns (r: PermissionState)
      modifies this`read
      ensures old(QueryRead(path)) != Prompt ==> read == old(read) && r == old(QueryRead(path))
      ensures old(QueryRead(path)) == Prompt ==>
        read == AnswerPath(old(read), path, answer) && r == (if answer then Granted else Denied)
      ensures r == QueryRead(path) && r != Prompt
    {
      var state := QueryPath(read, path);
      if state != Prompt {
        return state;
      }
      AnswerPathSettles(read, path, answer);
      if path.Some? {
        var resolved := path.value;
        if answer {
          read := read.(grantedList := set e | e in read.grantedList && !StartsWith(e, resolved));
          read := read.(grantedList := read.grantedList + {resolved});
          return Granted;
        } else {
          read := read.(deniedList := set e | e in read.deniedList && !StartsWith(resolved, e));
          read := read.(deniedList := read.deniedList + {resolved});
          read := read.(globalState := Denied);
          return Denied;
        }
      } else {
        if answer {
          read := read.(grantedList := {});
          read := read.(globalState := Granted);
          return Granted;
        } else {
          read := read.(globalState := Denied);
          return Denied;
        }
      }
    }

    /** `request_write`: as `request_read`, on the write permission. */
    method RequestWrite(path: Option<Path>, answer: bool) returns (r: PermissionState)
      modifies this`write
      ensures old(QueryWrite(path)) != Prompt ==> write == old(write) && r == old(QueryWrite(path))
      ensures old(QueryWrite(path)) == Prompt ==>
        write == AnswerPath(old(write), path, answer) && r == (if answer then Granted else Denied)
      ensures r == QueryWrite(path) && r != Prompt
    {
      var state := QueryPath(write, path);
      if state != Prompt {
        return state;
      }
      AnswerPathSettles(write, path, answer);
      if path.Some? {
        var resolved := path.value;
        if answer {
          write := write.(grantedList := set e | e in write.grantedList && !StartsWith(e, resolved));
          write := write.(grantedList := write.grantedList + {resolved});
          return Granted;
        } else {
          write := write.(deniedList := set e | e in write.deniedList && !StartsWith(resolved, e));
          write := write.(deniedList := write.deniedList + {resolved});
          write := write.(globalState := Denied);
          return Denied;
        }
      } else {
        if answer {
          write := write.(grantedList := {});
          write := write.(globalState := Granted);
          return Granted;
        } else {
          write := write.(globalState := Denied);
          return Denied;
        }
      }
    }

    /**
     * `request_net`, with the URL recorded under the entry its own query
     * matches (its host and port): a URL that does not parse or has no host
     * is an error and nothing changes; otherwise as `request_read`.
     */
    method RequestNet(url: Option<UrlInput>, answer: bool) returns (r: Result<PermissionState>)
      modifies this`net
      ensures old(QueryNetUrl(url)) != Ok(Prompt) ==> net == old(net) && r == old(QueryNetUrl(url))
      ensures old(QueryNetUrl(url)) == Ok(Prompt) ==>
        && (url.Some? ==> url.value.HasHost())
        && net == AnswerUrl(old(net), url, answer)
        && r == Ok(if answer then Granted else Denied)
      ensures r == QueryNetUrl(url)
      ensures r.Ok? ==> r.value != Prompt
    {
      var state :- QueryUrl(net, url);
      if state != Prompt {
        return Ok(state);
      }
      AnswerUrlSettles(net, url, answer);
      if url.Some? {
        var entry := UrlEntry(url.value);
        if answer {
          net := net.(grantedList := net.grantedList + {entry});
          return Ok(Granted);
        } else {
          net := net.(deniedList := net.deniedList + {entry});
          net := net.(globalState := Denied);
          return Ok(Denied);
        }
      } else {
        if answer {
          net := net.(grantedList := {});
          net := net.(globalState := Granted);
          return Ok(Granted);
        } else {
          net := net.(globalState := Denied);
          return Ok(Denied);
        }
      }
    }

    /** `request_env`: a pending prompt is settled by the answer; the settled state is returned. */
    method RequestEnv(answer: bool) returns (r: PermissionState)
      modifies this`env
      ensures env == Requested(old(env), answer) && r == env
    {
      if env == Prompt {
        if answer {
          env := Granted;
        } else {
          env := Denied;
        }
      }
      r := env;
    }

    /** `request_run`: as `request_env`, on the run permission. */
    method RequestRun(answer: bool) returns (r: PermissionState)
      modifies this`run
      ensures run == Requested(old(run), answer) && r == run
    {
      if run == Prompt {
        if answer {
          run := Granted;
        } else {
          run := Denied;
        }
      }
      r := run;
    }

    /** `request_plugin`: as `request_env`, on the plugin permission. */
    method RequestPlugin(answer: bool) returns (r: PermissionState)
      modifies this`plugin
      ensures plugin == Requested(old(plugin), answer) && r == plugin
    {
      if plugin == Prompt {
        if answer {
          plugin := Granted;
        } else {
          plugin := Denied;
        }
      }
      r := plugin;
    }

    /** `request_hrtime`: as `request_env`, on the hrtime permission. */
    method RequestHrtime(answer: bool) returns (r: PermissionState)
      modifies this`hrtime
      ensures hrtime == Requested(old(hrtime), answer) && r == hrtime
    {
      if hrtime == Prompt {
        if answer {
          hrtime := Granted;
        } else {
          hrtime := Denied;
        }
      }
      r := hrtime;
    }

    // -------------------------------------------------------------------
    // Revokes: take grants back, never deny
    // -------------------------------------------------------------------

    /**
     * `revoke_read`: with a path, drops the allowed entries at or below it;
     * without, clears the allow list and turns a global grant into prompt.
     * Returns the query afterwards, which is never more permissive than before.
     */
    method RevokeRead(path: Option<Path>) returns (r: PermissionState)
      modifies this`read
      ensures read == RevokeAtPath(old(read), path)
      ensures r == QueryRead(path)
      ensures ToIndex(old(QueryRead(path))) <= ToIndex(r)
    {
      RevokeNeverWidens(read, path, path);
      if path.Some? {
        var resolved := path.value;
        read := read.(grantedList := set e | e in read.grantedList && !StartsWith(e, resolved));
      } else {
        read := read.(grantedList := {});
        if read.globalState == Granted {
          read := read.(globalState := Prompt);
        }
      }
      r := QueryPath(read, path);
    }

    /** `revoke_write`: as `revoke_read`, on the write permission. */
    method RevokeWrite(path: Option<Path>) returns (r: PermissionState)
      modifies this`write
      ensures write == RevokeAtPath(old(write), path)
      ensures r == QueryWrite(path)
      ensures ToIndex(old(QueryWrite(path))) <= ToIndex(r)
    {
      RevokeNeverWidens(write, path, path);
      if path.Some? {
        var resolved := path.value;
        write := write.(grantedList := set e | e in write.grantedList && !StartsWith(e, resolved));
      } else {
        write := write.(grantedList := {});
        if write.globalState == Granted {
          write := write.(globalState := Prompt);
        }
      }
      r := QueryPath(write, path);
    }

    /**
     * `revoke_net`, with the URL's entry being that of its host and port:
     * afterwards the URL stays granted only through a global grant or a grant
     * of its bare host.
     */
    method RevokeNet(url: Option<UrlInput>) returns (r: Result<PermissionState>)
      modifies this`net
      ensures net == RevokeAtUrl(old(net), url)
      ensures r == QueryNetUrl(url)
      ensures url.Some? && url.value.HasHost() ==>
        (r == Ok(Granted) <==>
          old(QueryNetUrl(url)) != Ok(Denied) &&
          (old(net.globalState) == Granted || (url.value.PortOrDefault().Some? && url.value.Host() in old(net.grantedList))))
    {
      if url.Some? {
        if url.value.HasHost() {
          RevokedUrlQuery(net, url.value);
          net := net.(grantedList := net.grantedList - {UrlEntry(url.value)});
        }
      } else {
        net := net.(grantedList := {});
        if net.globalState == Granted {
          net := net.(globalState := Prompt);
        }
      }
      r := QueryUrl(net, url);
    }

    /** `revoke_env`: a grant falls back to prompt; prompt and denied stay. */
    method RevokeEnv() returns (r: PermissionState)
      modifies this`env
      ensures env == Revoked(old(env)) && r == env
    {
      if env == Granted {
        env := Prompt;
      }
      r := env;
    }

    /** `revoke_run`: as `revoke_env`, on the run permission. */
    method RevokeRun() returns (r: PermissionState)
      modifies this`run
      ensures run == Revoked(old(run)) && r == run
    {
      if run == Granted {
        run := Prompt;
      }
      r := run;
    }

    /** `revoke_plugin`: as `revoke_env`, on the plugin permission. */
    method RevokePlugin() returns (r: PermissionState)
      modifies this`plugin
      ensures plugin == Revoked(old(plugin)) && r == plugin
    {
      if plugin == Granted {
        plugin := Prompt;
      }
      r := plugin;
    }

    /** `revoke_hrtime`: as `revoke_env`, on the hrtime permission. */
    method RevokeHrtime() returns (r: PermissionState)
      modifies this`hrtime
      ensures hrtime == Revoked(old(hrtime)) && r == hrtime
    {
      if hrtime == Granted {
        hrtime := Prompt;
      }
      r := hrtime;
    }

    // -------------------------------------------------------------------
    // Checks: an access goes through only when its query is granted
    // -------------------------------------------------------------------

    /**
     * `check_read`: read access to `path` is allowed when read is granted
     * globally, or an allowed entry is `path` or an ancestor of it and no
     * global denial blocks `path`.
     */
    function CheckRead(path: Path): (r: Result<()>)
      reads this
      ensures r.Ok? <==>
        read.globalState == Granted ||
        (AllowlistMatches(path, read.grantedList) && !(read.globalState == Denied && BlocklistMatches(path, read.deniedList)))
      ensures r.Err? ==> r.error == AccessDenied("--allow-read")
    {
      Check(QueryRead(Some(path)), "--allow-read")
    }

    /** `check_write`: as `check_read`, on the write permission. */
    function CheckWrite(path: Path): (r: Result<()>)
      reads this
      ensures r.Ok? <==>
        write.globalState == Granted ||
        (AllowlistMatches(path, write.grantedList) && !(write.globalState == Denied && BlocklistMatches(path, write.deniedList)))
      ensures r.Err? ==> r.error == AccessDenied("--allow-write")
    {
      Check(QueryWrite(Some(path)), "--allow-write")
    }

    /**
     * `check_net`: access to `host` on `port` is allowed when net is not
     * denied globally, the block list names neither the host nor
     * `host:port`, and net is granted globally or the allow list names one
     * of them.
     */
    function CheckNet(host: string, port: Port): (r: Result<()>)
      reads this
      ensures r.Ok? <==>
        && net.globalState != Denied
        && !CheckHostAndPortList(host, Some(port), net.deniedList)
        && (net.globalState == Granted || CheckHostAndPortList(host, Some(port), net.grantedList))
      ensures r.Err? ==> r.error == AccessDenied("--allow-net")
    {
      Check(QueryNet(host, Some(port)), "--allow-net")
    }

    /** `check_net_url`: a URL without a host is an error; otherwise `check_net` on its host and port. */
    function CheckNetUrl(url: ParsedUrl): (r: Result<()>)
      reads this
      ensures url.host.None? ==> r == Err(MissingHost)
      ensures url.host.Some? ==> (r.Ok? <==> QueryNet(url.host.value, url.port) == Granted)
      ensures url.host.Some? && r.Err? ==> r.error == AccessDenied("--allow-net")
    {
      if url.host.None? then Err(MissingHost) else Check(QueryNet(url.host.value, url.port), "--allow-net")
    }

    function CheckEnv(): (r: Result<()>)
      reads this
      ensures r.Ok? <==> env == Granted
      ensures r.Err? ==> r.error == AccessDenied("--allow-env")
    {
      Check(env, "--allow-env")
    }

    function CheckRun(): (r: Result<()>)
      reads this
      ensures r.Ok? <==> run == Granted
      ensures r.Err? ==> r.error == AccessDenied("--allow-run")
    {
      Check(run, "--allow-run")
    }

    /** `check_plugin`; the plugin's path only enters the error message. */
    function CheckPlugin(): (r: Result<()>)
      reads this
      ensures r.Ok? <==> plugin == Granted
      ensures r.Err? ==> r.error == AccessDenied("--allow-plugin")
    {
      Check(plugin, "--allow-plugin")
    }

    /** `check_hrtime`; its error names the `--allow-run` flag, as the source does. */
    function CheckHrtime(): (r: Result<()>)
      reads this
      ensures r.Ok? <==> hrtime == Granted
      ensures r.Err? ==> r.error == AccessDenied("--allow-run")
    {
      Check(hrtime, "--allow-run")
    }

    // -------------------------------------------------------------------
    // Fork
    // -------------------------------------------------------------------

    /**
     * `fork`: the record of a child worker holds exactly the given
     * components, provided none of them escalates the matching component of
     * this record; then every query the child answers is at least as strict
     * as this record's answer.
     */
    method Fork(childRead: UnaryPermission<Path>, childWrite: UnaryPermission<Path>, childNet: UnaryPermission<string>,
                childEnv: PermissionState, childRun: PermissionState, childPlugin: PermissionState,
                childHrtime: PermissionState)
      returns (r: Result<Permissions>)
      ensures r.Ok? <==>
        && UnaryCheckFork(read, childRead).Ok?
        && UnaryCheckFork(write, childWrite).Ok?
        && UnaryCheckFork(net, childNet).Ok?
        && ToIndex(env) <= ToIndex(childEnv)
        && ToIndex(run) <= ToIndex(childRun)
        && ToIndex(plugin) <= ToIndex(childPlugin)
        && ToIndex(hrtime) <= ToIndex(childHrtime)
      ensures r.Err? ==> r.error == Escalation
      ensures r.Ok? ==> fresh(r.value)
      ensures r.Ok? ==> r.value.read == childRead && r.value.write == childWrite && r.value.net == childNet
      ensures r.Ok? ==> r.value.env == childEnv && r.value.run == childRun
      ensures r.Ok? ==> r.value.plugin == childPlugin && r.value.hrtime == childHrtime
      ensures r.Ok? ==> forall path ::
        ToIndex(QueryRead(path)) <= ToIndex(r.value.QueryRead(path)) &&
        ToIndex(QueryWrite(path)) <= ToIndex(r.value.QueryWrite(path))
      ensures r.Ok? ==> forall host, port ::
        ToIndex(QueryNet(host, port)) <= ToIndex(r.value.QueryNet(host, port))
    {
      var checked :- UnaryCheckFork(read, childRead);
      checked :- UnaryCheckFork(write, childWrite);
      checked :- UnaryCheckFork(net, childNet);
      checked :- CheckFork(env, childEnv);
      checked :- CheckFork(run, childRun);
      checked :- CheckFork(plugin, childPlugin);
      checked :- CheckFork(hrtime, childHrtime);
      var child := new Permissions(childRead, childWrite, childNet, childEnv, childRun, childPlugin, childHrtime);
      forall path: Option<Path>
        ensures ToIndex(QueryRead(path)) <= ToIndex(child.QueryRead(path))
        ensures ToIndex(QueryWrite(path)) <= ToIndex(child.QueryWrite(path))
      {
        ForkPathNoEscalation(read, childRead, path);
        ForkPathNoEscalation(write, childWrite, path);
      }
      forall host: string, port: Option<Port>
        ensures ToIndex(QueryNet(host, port)) <= ToIndex(child.QueryNet(host, port))
      {
        ForkHostNoEscalation(net, childNet, host, port);
      }
      return Ok(child);
    }
  }

  // ---------------------------------------------------------------------
  // The unit tests of the permission record, replayed against the contracts
  // ---------------------------------------------------------------------

  /** `test_fork`: a child that stays at prompt may fork; one that asks for grants may not. */
  method ForkScenario() {
    var parent := new Permissions(DefaultUnary(), DefaultUnary(), DefaultUnary(), Prompt, Prompt, Prompt, Prompt);
    var ok := parent.Fork(DefaultUnary(), DefaultUnary(), DefaultUnary(), Prompt, Prompt, Denied, Denied);
    assert ok.Ok?;
    var allPaths: UnaryPermission<Path> := UnaryPermission(Granted, {}, {});
    var allHosts: UnaryPermission<string> := UnaryPermission(Granted, {}, {});
    var escalated := parent.Fork(allPaths, allPaths, allHosts, Granted, Granted, Denied, Denied);
    assert escalated.Err?;
  }

  /** `test_query`: queries of a record granting everything and of one allowing `/foo` and one host. */
  method QueryScenario() {
    var perms1 := new Permissions.AllowAll();
    var foo: Path := ["/", "foo"];
    var fooBar: Path := ["/", "foo", "bar"];
    var url := UrlInput("http://127.0.0.1:8000", Some(ParsedUrl(Some("127.0.0.1"), Some(8000))));
    var paths := UnaryPermission(Prompt, {foo}, {});
    var perms2 := new Permissions(paths, paths, UnaryPermission(Prompt, {"127.0.0.1:8000"}, {}), Prompt, Prompt, Prompt, Prompt);
    assert perms1.QueryRead(None) == Granted && perms1.QueryRead(Some(foo)) == Granted;
    assert perms2.QueryRead(None) == Prompt;
    assert StartsWith(foo, foo) && StartsWith(fooBar, foo);
    assert perms2.QueryRead(Some(foo)) == Granted && perms2.QueryRead(Some(fooBar)) == Granted;
    assert perms1.QueryWrite(None) == Granted && perms1.QueryWrite(Some(foo)) == Granted;
    assert perms2.QueryWrite(None) == Prompt;
    assert perms2.QueryWrite(Some(foo)) == Granted && perms2.QueryWrite(Some(fooBar)) == Granted;
    assert perms1.QueryNetUrl(None) == Ok(Granted) && perms1.QueryNetUrl(Some(url)) == Ok(Granted);
    assert perms2.QueryNetUrl(None) == Ok(Prompt);
    assert HostPort("127.0.0.1", 8000) == "127.0.0.1:8000" by {
      assert DecimalString(8000) == "8000";
    }
    assert perms2.QueryNetUrl(Some(url)) == Ok(Granted);
    assert perms1.QueryEnv() == Granted && perms2.QueryEnv() == Prompt;
    assert perms1.QueryRun() == Granted && perms2.QueryRun() == Prompt;
    assert perms1.QueryPlugin() == Granted && perms2.QueryPlugin() == Prompt;
    assert perms1.QueryHrtime() == Granted && perms2.QueryHrtime() == Prompt;
  }

  /** `test_request`, read and write: a granted path covers what lies below it; a denied one does not. */
  method RequestPathScenario() {
    var perms := new Permissions(DefaultUnary(), DefaultUnary(), DefaultUnary(), Prompt, Prompt, Prompt, Prompt);
    var foo: Path := ["/", "foo"];
    var fooBar: Path := ["/", "foo", "bar"];
    var r := perms.RequestRead(Some(foo), true);
    assert r == Granted;
    assert perms.QueryRead(None) == Prompt;
    GrantPathCoversSubtree(DefaultUnary(), foo, fooBar);
    r := perms.RequestRead(Some(fooBar), false);
    assert r == Granted;
    r := perms.RequestWrite(Some(foo), false);
    assert r == Denied;
    DenyPathScope(DefaultUnary(), foo, fooBar);
    assert perms.QueryWrite(Some(fooBar)) == Prompt;
    r := perms.RequestWrite(None, true);
    assert r == Denied;
  }

  /** `test_request`, net: after a global grant a URL request does not ask. */
  method RequestNetScenario() {
    var perms := new Permissions(DefaultUnary(), DefaultUnary(), DefaultUnary(), Prompt, Prompt, Prompt, Prompt);
    var url := UrlInput("http://127.0.0.1:8000", Some(ParsedUrl(Some("127.0.0.1"), Some(8000))));
    var n := perms.RequestNet(None, true);
    assert n == Ok(Granted);
    n := perms.RequestNet(Some(url), false);
    assert n == Ok(Granted);
  }

  /** `test_request`, env, run, plugin and hrtime: the first answer sticks. */
  method RequestStateScenario() {
    var perms := new Permissions(DefaultUnary(), DefaultUnary(), DefaultUnary(), Prompt, Prompt, Prompt, Prompt);
    var r := perms.RequestEnv(true);
    assert r == Granted;
    r := perms.RequestEnv(false);
    assert r == Granted;
    r := perms.RequestRun(false);
    assert r == Denied;
    r := perms.RequestRun(true);
    assert r == Denied;
    r := perms.RequestPlugin(true);
    assert r == Granted;
    r := perms.RequestPlugin(false);
    assert r == Granted;
    r := perms.RequestHrtime(false);
    assert r == Denied;
    r := perms.RequestHrtime(true);
    assert r == Denied;
  }

  /** `test_revoke`: revoking below an allowed path keeps it; revoking the path itself removes it. */
  method RevokeScenario() {
    var foo: Path := ["/", "foo"];
    var fooBar: Path := ["/", "foo", "bar"];
    var paths := UnaryPermission(Prompt, {foo}, {});
    var perms := new Permissions(paths, paths, UnaryPermission(Denied, {}, {}), Granted, Granted, Prompt, Denied);
    assert StartsWith(fooBar, foo) && !StartsWith(foo, fooBar);
    var r := perms.RevokeRead(Some(fooBar));
    assert r == Granted;
    r := perms.RevokeRead(Some(foo));
    assert r == Prompt;
    assert perms.QueryRead(Some(fooBar)) == Prompt;
    r := perms.RevokeWrite(Some(fooBar));
    assert r == Granted;
    r := perms.RevokeWrite(None);
    assert r == Prompt;
    assert perms.QueryWrite(Some(fooBar)) == Prompt;
    var n := perms.RevokeNet(None);
    assert n == Ok(Denied);
    r := perms.RevokeEnv();
    assert r == Prompt;
    r := perms.RevokeRun();
    assert r == Prompt;
    r := perms.RevokePlugin();
    assert r == Prompt;
    r := perms.RevokeHrtime();
    assert r == Denied;
  }
}
