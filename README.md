# Deno CLI permissions, modelled in Dafny

This project models the permission layer of the Deno command-line runtime
(`cli/permissions.rs`). A Deno process holds one permission record:

- three *unary* permissions, each a tri-state global state (granted, prompt,
  denied) together with a set of entries granted one by one and a set of
  entries denied one by one. Read and write keep filesystem paths in their
  sets. Net keeps host names and `host:port` strings.
- four plain tri-state permissions: env, run, plugin and hrtime.

Queries compute a state from a fixed precedence. Path queries use
component-wise ancestry against the lists. Host queries use exact `host` /
`host:port` matches. A request settles a pending prompt with the user's
answer and records it in the record. A revoke takes grants back. A check turns
a state into success or a "PermissionDenied" error. Fork builds the record of
a child worker only if no component of it is more permissive than the
parent's.

Files and modules:

- `state.dfy`: `Wrappers` (Option) and `PermissionStates`. These hold the
  tri-state value, the errors, `check`, `check_fork`, the conversions from a
  discriminant and from an allow flag, and what a request and a revoke do to
  a single state.
- `paths.dfy`: `PathLists`. A path is its sequence of components, so
  `Path::starts_with` is a prefix test. `check_path_allowlist` and
  `check_path_blocklist` are loops over the set, proved against existential
  predicates.
- `hosts.dfy`: `HostLists`. Holds the decimal text of a `u16` port, with its
  round trip, and `check_host_and_port_list`.
- `unary.dfy`: `UnaryPermissions`. Holds the unary permission as a value, the
  queries on it, the list changes made by requests and revokes, the fork
  check, and the lemmas relating them.
- `permissions.dfy`: `DenoPermissions`. Holds the class `Permissions` with
  the seven fields of the record. Requests and revokes are methods that
  change one field each, with field-level `modifies` frames. Queries and
  checks are functions. Fork is a method that allocates the child record. The
  unit tests of the source file are replayed as client methods against these
  contracts.

Inputs the source obtains by I/O are parameters here:

- the user's answer to a prompt is a `bool`;
- paths arrive already resolved against the working directory;
- a URL arrives as its text plus what the URL parser makes of it (`UrlInput`,
  `ParsedUrl`).

`query_read`, `query_write`, `query_net` and `query_net_url` are the class
functions `QueryRead`, `QueryWrite`, `QueryNet` and `QueryNetUrl`. Each applies
`QueryPath`, `QueryHost` or `QueryUrl` to its field, and those functions carry
the contracts.
`query_env`, `query_run`, `query_plugin` and `query_hrtime` read one field.
They are the class functions `QueryEnv`, `QueryRun`, `QueryPlugin` and
`QueryHrtime`, which carry no contract of their own.

## Model

| member | source | states |
|---|---|---|
| `PermissionStates.Check` | cli/permissions.rs:35-42 | succeeds exactly when the state is granted; prompt and denied both fail with a PermissionDenied error naming the flag |
| `PermissionStates.CheckFork` | cli/permissions.rs:45-52 | succeeds exactly when the child state is at least as strict as the parent's in the order granted < prompt < denied; otherwise an escalation error |
| `PermissionStates.CheckForkPreorder` | cli/permissions.rs:44-52 | non-escalation of single states is reflexive and transitive |
| `PermissionStates.FromIndex` | cli/permissions.rs:55-64 | maps each discriminant 0, 1, 2 to the state that has it; other values are unreachable |
| `PermissionStates.IndexRoundTrip` | cli/permissions.rs:27-31 | converting a state to its discriminant and back gives the same state |
| `PermissionStates.FromBool` | cli/permissions.rs:66-74 | an allow flag gives granted, its absence prompt; never denied |
| `PermissionStates.Requested` | cli/permissions.rs:411-420 | a request leaves no prompt; a settled state stays; a prompt becomes granted exactly when the answer is yes |
| `PermissionStates.RequestedSettles` | cli/permissions.rs:1077-1092 | once settled, a second request returns the first answer whatever the new answer |
| `PermissionStates.Revoked` | cli/permissions.rs:502-507 | a revoke turns a grant into prompt, leaves prompt and denied as they were, and never makes the state more permissive |
| `PermissionStates.RevokedIdempotent` | cli/permissions.rs:502-528 | revoking twice is revoking once; a revoked state is prompt unless it was denied |
| `PathLists.CheckPathAllowlist` | cli/permissions.rs:691-698 | the scan returns true exactly when some allowed entry is the path or one of its ancestors |
| `PathLists.CheckPathBlocklist` | cli/permissions.rs:700-707 | the scan returns true exactly when the path is some denied entry or one of its ancestors |
| `PathLists.CheckPathsExample` | cli/permissions.rs:733-791 | with the allow list of the unit test, paths inside `/a/specific` and `/b/c` match, and `/b/e` and `/a/b` do not |
| `HostLists.DecimalString` | cli/permissions.rs:716 | the port text is non-empty, all digits, with no leading zero |
| `HostLists.DecimalRoundTrip` | cli/permissions.rs:716 | reading the decimal text of a number back gives the number |
| `HostLists.HostPortInjective` | cli/permissions.rs:716 | for one host, two `host:port` strings are equal only for equal ports |
| `HostLists.CheckHostAndPortList` | cli/permissions.rs:709-717 | a listed bare host always matches; without a port only the bare host can match |
| `HostLists.HostEntryMatchesEveryPort` | cli/permissions.rs:714 | a bare host entry matches its host with any port or none |
| `HostLists.PortEntryMatchesOnlyItsPort` | cli/permissions.rs:715-716 | a `host:port` entry matches its host exactly when that port is given |
| `HostLists.CheckNetAllowedExample` | cli/permissions.rs:807-828 | the host cases of the unit test that must pass do match the unit test's list |
| `HostLists.DefaultPortUrlExample` | cli/permissions.rs:865-866 | the parsed form of the unit test's `https://www.github.com:443/robots.txt` case (host `www.github.com`, port 443) matches the list, and would not without its port |
| `HostLists.CheckNetRefusedExample` | cli/permissions.rs:807-828 | the host cases of the unit test that must fail do not match it |
| `UnaryPermissions.UnaryCheckFork` | cli/permissions.rs:101-110 | succeeds exactly when the child's global state is at least as strict, its granted list is a subset of the parent's and the parent's denied list is a subset of its own |
| `UnaryPermissions.UnaryCheckForkPreorder` | cli/permissions.rs:100-110 | non-escalation of unary permissions is reflexive and transitive |
| `UnaryPermissions.QueryPath` | cli/permissions.rs:195-235 | (`query_read` and `query_write`, the class functions `QueryRead` and `QueryWrite`) denied exactly when global is denied and there is no path or the path is on the way to a denied entry; a global grant is never overridden; with a path and not denied, granted exactly when global is granted or an allowed entry is an ancestor; with no path the global state itself |
| `UnaryPermissions.QueryHost` | cli/permissions.rs:237-249 | (`query_net`, the class function `QueryNet`) denied exactly when global is denied OR the block list names the host; otherwise granted exactly when global is granted or the allow list names it |
| `UnaryPermissions.GlobalGrantOverridesPathBlockList` | cli/permissions.rs:197-213 | under a global grant, a path on the way to a denied entry is still granted |
| `UnaryPermissions.HostBlockListOverridesGlobalGrant` | cli/permissions.rs:237-242 | under a global grant, a host or `host:port` on the block list is denied |
| `UnaryPermissions.QueryUrl` | cli/permissions.rs:251-273 | (`query_net_url`, the class function `QueryNetUrl`) no URL gives the global state; a URL that does not parse or has no host is an error; otherwise the host query on its host and port |
| `UnaryPermissions.GrantPath` | cli/permissions.rs:300-304 | keeps the global state and denied list, allows the path, leaves no other allowed entry below it, and keeps every allowed entry outside its subtree |
| `UnaryPermissions.DenyPath` | cli/permissions.rs:306-313 | keeps the granted list, makes global denied, denies the path, leaves no other denied entry above it, and keeps every denied entry that is not its ancestor |
| `UnaryPermissions.RevokePath` | cli/permissions.rs:456-461 | keeps the global state and denied list, removes exactly the allowed entries at or below the path, and keeps every other one |
| `UnaryPermissions.RevokePathLeavesOthers` | cli/permissions.rs:456-461 | revoking a path leaves the query of every path outside its subtree unchanged |
| `UnaryPermissions.GrantPathCoverage` | cli/permissions.rs:300-304 | after granting a path, the allow list covers exactly what it covered before plus everything at or below the path |
| `UnaryPermissions.DenyPathCoverage` | cli/permissions.rs:306-311 | after denying a path, the block list covers exactly what it covered before plus the path and its ancestors |
| `UnaryPermissions.RevokePathCoverage` | cli/permissions.rs:456-461 | after revoking a path, a path at or below it is covered only through an allowed entry strictly above the revoked path |
| `UnaryPermissions.AnswerPathSettles` | cli/permissions.rs:291-331 | when the query prompts, recording the answer makes the same query return granted for yes and denied for no |
| `UnaryPermissions.GrantPathCoversSubtree` | cli/permissions.rs:1064-1067 | granting a prompted path grants every path below it |
| `UnaryPermissions.DenyPathScope` | cli/permissions.rs:1069-1070 | after denying a path, another path is denied exactly when it was blocked before or is the path or one of its ancestors, so `/foo/bar` stays at prompt after denying `/foo` |
| `UnaryPermissions.RevokeNeverWidens` | cli/permissions.rs:455-469 | a revoke never makes any path query more permissive |
| `UnaryPermissions.RevokedPathQuery` | cli/permissions.rs:1120-1122 | after revoking a path, a path below it stays granted exactly when it is not denied and global is granted or an allowed entry lies strictly above the revoked path |
| `UnaryPermissions.ForkPathNoEscalation` | cli/permissions.rs:600-611 | a child that passes the fork check answers every path query at least as strictly as its parent |
| `UnaryPermissions.ForkHostNoEscalation` | cli/permissions.rs:612 | a child that passes the fork check answers every host query at least as strictly as its parent |
| `UnaryPermissions.NetEntry` | cli/permissions.rs:714-716 | the entry for a host and port is matched by the host query for that host and port |
| `UnaryPermissions.NetEntryCoversOnlyItsPort` | cli/permissions.rs:714-716 | the entry recorded for a host and a port covers exactly that port of the host, no other port and not the portless host |
| `UnaryPermissions.UrlEntryAsWrittenMissesGrant` | cli/permissions.rs:386 | with the URL text as the key, a granted `http://127.0.0.1:8000` still queries as prompt |
| `UnaryPermissions.UrlEntryAsWrittenMissesRevoke` | cli/permissions.rs:492 | with the URL text as the key, revoking `http://127.0.0.1:8000` leaves `127.0.0.1:8000` granted |
| `UnaryPermissions.AnswerUrlSettles` | cli/permissions.rs:375-409 | keyed by host and port, a prompted net request makes the same query return the answer |
| `UnaryPermissions.RevokedUrlQuery` | cli/permissions.rs:487-500 | keyed by host and port, after revoking a URL it stays granted only through a global grant or a grant of its bare host |
| `DenoPermissions.Permissions.constructor` | cli/permissions.rs:113-122 | the record holds exactly the given components |
| `DenoPermissions.Permissions.AllowAll` | cli/permissions.rs:174-193 | every component is granted with empty lists, and every read, write and net query is granted |
| `DenoPermissions.Permissions.RequestRead` | cli/permissions.rs:291-331 | a non-prompt query is returned and read is unchanged; otherwise the answer is recorded and returned; the result is never prompt and equals the same query afterwards; only read changes |
| `DenoPermissions.Permissions.RequestWrite` | cli/permissions.rs:333-373 | as RequestRead, on write |
| `DenoPermissions.Permissions.RequestNet` | cli/permissions.rs:375-409 | a bad URL or a non-prompt query is returned and net is unchanged; otherwise the answer is recorded under the URL's host-and-port entry and returned; the result equals the same query afterwards |
| `DenoPermissions.Permissions.RequestEnv` | cli/permissions.rs:411-420 | env becomes the settled state and is returned; nothing else changes |
| `DenoPermissions.Permissions.RequestRun` | cli/permissions.rs:422-431 | as RequestEnv, on run |
| `DenoPermissions.Permissions.RequestPlugin` | cli/permissions.rs:433-442 | as RequestEnv, on plugin |
| `DenoPermissions.Permissions.RequestHrtime` | cli/permissions.rs:444-453 | as RequestEnv, on hrtime |
| `DenoPermissions.Permissions.RevokeRead` | cli/permissions.rs:455-469 | removes allowed entries at or below the path, or clears the list and downgrades a global grant; returns the query afterwards, which is never more permissive |
| `DenoPermissions.Permissions.RevokeWrite` | cli/permissions.rs:471-485 | as RevokeRead, on write |
| `DenoPermissions.Permissions.RevokeNet` | cli/permissions.rs:487-500 | removes the URL's host-and-port entry, or clears the list and downgrades a global grant; returns the query afterwards; the URL then stays granted only through a global grant or its bare host |
| `DenoPermissions.Permissions.RevokeEnv` | cli/permissions.rs:502-507 | a grant of env becomes prompt and the result is returned; nothing else changes |
| `DenoPermissions.Permissions.RevokeRun` | cli/permissions.rs:509-514 | as RevokeEnv, on run |
| `DenoPermissions.Permissions.RevokePlugin` | cli/permissions.rs:516-521 | as RevokeEnv, on plugin |
| `DenoPermissions.Permissions.RevokeHrtime` | cli/permissions.rs:523-528 | as RevokeEnv, on hrtime |
| `DenoPermissions.Permissions.CheckRead` | cli/permissions.rs:530-536 | succeeds exactly when read is granted globally, or an allowed entry is an ancestor of the path and no global denial blocks it; else a PermissionDenied error naming `--allow-read` |
| `DenoPermissions.Permissions.CheckWrite` | cli/permissions.rs:551-557 | as CheckRead, on write, naming `--allow-write` |
| `DenoPermissions.Permissions.CheckNet` | cli/permissions.rs:559-564 | succeeds exactly when net is not denied globally, the block list names neither host nor `host:port`, and net is granted globally or the allow list names one of them |
| `DenoPermissions.Permissions.CheckNetUrl` | cli/permissions.rs:566-573 | a URL without a host is a missing-host error; otherwise succeeds exactly when its host query is granted |
| `DenoPermissions.Permissions.CheckEnv` | cli/permissions.rs:575-579 | succeeds exactly when env is granted; else names `--allow-env` |
| `DenoPermissions.Permissions.CheckRun` | cli/permissions.rs:581-583 | succeeds exactly when run is granted; else names `--allow-run` |
| `DenoPermissions.Permissions.CheckPlugin` | cli/permissions.rs:585-591 | succeeds exactly when plugin is granted; else names `--allow-plugin` |
| `DenoPermissions.Permissions.CheckHrtime` | cli/permissions.rs:593-597 | succeeds exactly when hrtime is granted; else names `--allow-run`, as the source does |
| `DenoPermissions.Permissions.Fork` | cli/permissions.rs:600-626 | succeeds exactly when no component escalates the parent's; on success the new record holds exactly the given components and answers every read, write and net query at least as strictly as the parent |

## Findings

| source | as written | input that shows it | evidently intended | confidence | as-written member | corrected member |
|---|---|---|---|---|---|---|
| cli/permissions.rs:379-393 | `request_net` records the whole URL text in the granted or denied list, but `query_net` only matches `host` or `host:port` entries | fresh record at prompt; grant `http://127.0.0.1:8000` (host `127.0.0.1`, port 8000); the next query of that URL is still prompt (`UnaryPermissions.UrlEntryAsWrittenMissesGrant`) | record the entry the URL's own query matches, `host:port`, or the bare host when there is no port, so the request's answer sticks (`UnaryPermissions.AnswerUrlSettles`) | medium, not executed | `UnaryPermissions.UrlEntryAsWritten` | `UnaryPermissions.UrlEntry` |
| cli/permissions.rs:491-492 | `revoke_net` removes the whole URL text from the granted list, which never holds it when access came from a `host:port` entry | record allowing `127.0.0.1:8000`; revoke `http://127.0.0.1:8000`; the URL is still granted (`UnaryPermissions.UrlEntryAsWrittenMissesRevoke`) | remove the URL's `host:port` entry (or bare host), so the URL stays granted only through a global grant or a bare-host grant (`UnaryPermissions.RevokedUrlQuery`) | medium, not executed | `UnaryPermissions.UrlEntryAsWritten` | `UnaryPermissions.UrlEntry` |

`Permissions.RequestNet` and `Permissions.RevokeNet` use the corrected key.

## Left out

- `permission_prompt` (terminal I/O in a loop) is replaced by the `answer` argument. The test-only prompt stubs, an atomic flag and a mutex, are left out too.
- `resolve_from_cwd`, `current_dir` and `resolved_and_display_path`: paths are taken as already resolved component sequences. The unit-test case that needs `..` and `.` normalised is therefore not replayed. The display path only shapes messages.
- URL parsing (`Url::parse`, `host`, `port_or_known_default`) belongs to a foreign library. Its outcome is an input, so of the URL half of `test_check_net` only the last case is replayed, with its parsed host and port written out (`HostLists.DefaultPortUrlExample`).
- `from_flags` and `resolve_fs_allowlist` depend on the `Flags` record and the working directory. Neither is part of this model. Only the flag-to-state mapping (`FromBool`) is kept.
- `check_read_blind` is `check_read` with a different message. It is not modelled separately.
- Message wording, `log_perm_access`, the `Display` and `Default` impls, and serde deserialisation (`test_deserialize_perms`) are left out. An `Error` keeps only its kind and the flag it names.
- `DenoPermissions.Permissions.CheckPlugin`: takes no path. In the source the path only enters the error message.
- `DenoPermissions.Permissions.RevokeNet`: a URL that does not parse or has no host removes nothing. The source first removes the URL text and then reports the parse error. This follows the corrected keying above.
- `HashSet` iteration order: lists are sets. The order in which the allow-list and block-list scans visit entries is arbitrary, which is sound because the scans only look for one match.
- `cli/main.rs` (subcommand dispatch, async runtime, logging, output) is not part of this model.
