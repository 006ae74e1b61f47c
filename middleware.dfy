/**
 * The two access gates every store route runs before its handler. Both start
 * from the principal decoded from the bearer token (absent when the token
 * carried none) and either stop the request with 403 or pass it on.
 */
module Middleware {
  import opened Wrappers
  import opened EmployeeSchema

  /** The caller as the verified token describes it. */
  datatype Principal = Principal(nodePath: string, role: Role)

  /** A gate either passes the request on or answers 403 with an error text. */
  datatype Decision = Next | Forbidden(error: string)

  const ManagersOnly := "Managers only!"
  const OutOfScope := "Unauthorized to access this node"

  /** String `startsWith`: `s` begins with `prefix`, compared character by character. */
  function StartsWith(s: string, prefix: string): (b: bool)
    ensures b <==> prefix <= s
  {
    if prefix == [] then true
    else if s == [] then false
    else s[0] == prefix[0] && StartsWith(s[1..], prefix[1..])
  }

  /** The manager gate: only a principal whose role is Manager passes. */
  function ManagerGate(auth: Option<Principal>): (d: Decision)
    ensures d == Next <==> auth.Some? && auth.value.role == Manager
    ensures d != Next ==> d == Forbidden(ManagersOnly)
  {
    if auth.None? || auth.value.role != Manager then Forbidden(ManagersOnly) else Next
  }

  /**
   * The scope gate: a principal without a node path is always refused; a
   * target store path, when given and non-empty, must begin with the
   * principal's node path as a string.
   */
  function Authorize(auth: Option<Principal>, storePath: Option<string>): (d: Decision)
    ensures d == Next <==>
      && auth.Some? && auth.value.nodePath != ""
      && (storePath.None? || storePath.value == "" || auth.value.nodePath <= storePath.value)
    ensures d != Next ==> d == Forbidden(OutOfScope)
  {
    if auth.None? || auth.value.nodePath == ""
       || (storePath.Some? && storePath.value != "" && !StartsWith(storePath.value, auth.value.nodePath))
    then Forbidden(OutOfScope)
    else Next
  }

  /** Employees, superusers and an absent principal are all stopped by the manager gate. */
  lemma NonManagersStopped(auth: Option<Principal>)
    requires auth.None? || auth.value.role in {Employee, SuperUser}
    ensures ManagerGate(auth) == Forbidden(ManagersOnly)
  {
  }

  /** Without a node path the scope gate refuses, whatever the target. */
  lemma NoNodePathDenied(auth: Option<Principal>, storePath: Option<string>)
    requires auth.None? || auth.value.nodePath == ""
    ensures Authorize(auth, storePath) == Forbidden(OutOfScope)
  {
  }

  /** Without a target store path the scope gate passes any principal that has a node path. */
  lemma NoTargetAllowed(p: Principal, storePath: Option<string>)
    requires p.nodePath != ""
    requires storePath.None? || storePath.value == ""
    ensures Authorize(Some(p), storePath) == Next
  {
  }

  /** A principal may always act on its own node. */
  lemma AuthorizeReflexive(p: Principal)
    requires p.nodePath != ""
    ensures Authorize(Some(p), Some(p.nodePath)) == Next
  {
  }

  /** Access to a node extends to every string that begins with it. */
  lemma {:induction false} AuthorizeDownward(auth: Option<Principal>, path: string, suffix: string)
    requires path != ""
    requires Authorize(auth, Some(path)) == Next
    ensures Authorize(auth, Some(path + suffix)) == Next
  {
    var n := auth.value.nodePath;
    assert n <= path;
    assert (path + suffix)[..|n|] == path[..|n|];
  }

  /** No principal may act on a strictly shorter node path, such as an ancestor of its own. */
  lemma NoUpwardAccess(p: Principal, target: string)
    requires target != "" && |target| < |p.nodePath|
    ensures Authorize(Some(p), Some(target)) == Forbidden(OutOfScope)
  {
  }

  /**
   * The comparison is on strings, not on path segments: a principal at
   * "a.b" may act on its sibling "a.bc", which is neither its own node nor
   * below "a.b.".
   */
  lemma SiblingByStringPrefix(r: Role)
    ensures Authorize(Some(Principal("a.b", r)), Some("a.bc")) == Next
    ensures "a.bc" != "a.b" && !("a.b." <= "a.bc")
  {
    assert "a.b" <= "a.bc";
    assert "a.b."[3] != "a.bc"[3];
  }

  /** The scope decision does not depend on the principal's role. */
  lemma AuthorizeIgnoresRole(nodePath: string, r1: Role, r2: Role, storePath: Option<string>)
    ensures Authorize(Some(Principal(nodePath, r1)), storePath) == Authorize(Some(Principal(nodePath, r2)), storePath)
  {
  }
}
