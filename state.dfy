/** Optional values, used for the optional path, port and URL arguments. */
module Wrappers {

  datatype Option<+T> = None | Some(value: T)
}

/**
 * The tri-state permission value of the Deno CLI, the errors the permission
 * layer raises, and the operations defined on a single state: `check`,
 * `check_fork`, the conversions from a flag and from a discriminant, and the
 * effect of a request and of a revoke on a state of its own (env, run,
 * plugin, hrtime).
 */
module PermissionStates {

  /**
   * Tri-state permission value. The declared discriminants are Granted = 0,
   * Prompt = 1 and Denied = 2, which order the states from the most to the
   * least permissive.
   */
  datatype PermissionState = Granted | Prompt | Denied

  /** Errors raised by the permission layer; the wording of messages is not modelled. */
  datatype Error =
    | AccessDenied(flag: string)  // class "PermissionDenied"; names the flag that would allow the access
    | Escalation                  // class "PermissionDenied": arguments escalate parent permissions
    | InvalidUrl                  // the URL parser rejected the text
    | MissingHost                 // class "URIError": the URL has no host

  /** An operation that either yields a value or fails with an `Error`. */
  datatype Result<+T> = Ok(value: T) | Err(error: Error) {

    predicate IsFailure() {
      Err?
    }

    function PropagateFailure<U>(): Result<U>
      requires Err?
    {
      Err(error)
    }

    function Extract(): T
      requires Ok?
    {
      value
    }
  }

  /** The discriminant of a state. */
  function ToIndex(s: PermissionState): (n: nat)
    ensures n < 3
  {
    match s
    case Granted => 0
    case Prompt => 1
    case Denied => 2
  }

  /** `From<usize>`: a discriminant back to its state; every other value is unreachable. */
  function FromIndex(n: nat): (s: PermissionState)
    requires n < 3
    ensures ToIndex(s) == n
  {
    if n == 0 then Granted else if n == 1 then Prompt else Denied
  }

  lemma IndexRoundTrip(s: PermissionState)
    ensures FromIndex(ToIndex(s)) == s
  {
  }

  /** `From<bool>`: an `--allow-*` flag grants the permission; without it the user is asked. */
  function FromBool(allowed: bool): (s: PermissionState)
    ensures s != Denied
    ensures s == Granted <==> allowed
  {
    if allowed then Granted else Prompt
  }

  /** `PermissionState::check`: only a granted state lets the access through. */
  function Check(s: PermissionState, flag: string): (r: Result<()>)
    ensures r.Ok? <==> s == Granted
    ensures r.Err? ==> r.error == AccessDenied(flag)
  {
    if s == Granted then Ok(()) else Err(AccessDenied(flag))
  }

  /**
   * `PermissionState::check_fork`: the `child` state handed to a forked
   * worker must not be more permissive than the `parent` state.
   */
  function CheckFork(parent: PermissionState, child: PermissionState): (r: Result<()>)
    ensures r.Ok? <==> ToIndex(parent) <= ToIndex(child)
    ensures r.Err? ==> r.error == Escalation
  {
    if (parent == Denied && child != Denied) || (parent == Prompt && child == Granted) then
      Err(Escalation)
    else
      Ok(())
  }

  /** Non-escalation between single states is reflexive and transitive. */
  lemma CheckForkPreorder(a: PermissionState, b: PermissionState, c: PermissionState)
    ensures CheckFork(a, a).Ok?
    ensures CheckFork(a, b).Ok? && CheckFork(b, c).Ok? ==> CheckFork(a, c).Ok?
  {
  }

  /**
   * The state a request for env, run, plugin or hrtime leaves behind: a
   * pending prompt is settled by the user's `answer`; a settled state stays.
   */
  function Requested(s: PermissionState, answer: bool): (r: PermissionState)
    ensures r != Prompt
    ensures s != Prompt ==> r == s
    ensures s == Prompt ==> (r == Granted <==> answer)
  {
    if s == Prompt then (if answer then Granted else Denied) else s
  }

  /** Once settled, later requests do not ask again, whatever the answer. */
  lemma RequestedSettles(s: PermissionState, first: bool, second: bool)
    ensures Requested(Requested(s, first), second) == Requested(s, first)
  {
  }

  /** The state a revoke of env, run, plugin or hrtime leaves behind. */
  function Revoked(s: PermissionState): (r: PermissionState)
    ensures r != Granted
    ensures s == Granted ==> r == Prompt
    ensures s != Granted ==> r == s
    ensures ToIndex(s) <= ToIndex(r)
  {
    if s == Granted then Prompt else s
  }

  /** Revoking twice is revoking once, and a revoked state can be asked for again unless it was denied. */
  lemma RevokedIdempotent(s: PermissionState)
    ensures Revoked(Revoked(s)) == Revoked(s)
    ensures Revoked(s) == Prompt <==> s != Denied
  {
  }
}
