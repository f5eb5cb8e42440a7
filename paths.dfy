/** Resolution of a command's short path to a runfiles location. The
    runfiles lookup and the path join are foreign code, so both are
    parameters: `rloc` stands for Rlocation and `join` for joining the
    workspace name and the path (with separators turned into slashes). */
module Paths {
  import opened Types

  const ParentMarker: string := "../"

  predicate StartsWithParent(p: string)
  {
    |p| >= |ParentMarker| && p[..|ParentMarker|] == ParentMarker
  }

  /** scriptPath: an external path drops its leading "../", any other path
      is taken relative to the workspace. It never fails. */
  function ScriptPath(rloc: string -> string, join: (string, string) -> string,
                      workspace: string, p: string): (r: string)
    ensures StartsWithParent(p) ==> r == rloc(p[|ParentMarker|..])
    ensures !StartsWithParent(p) ==> r == rloc(join(workspace, p))
  {
    if StartsWithParent(p) then rloc(p[3..]) else rloc(join(workspace, p))
  }

  /** An external path is resolved with exactly its marker removed. */
  lemma ExternalPathStripsMarker(rloc: string -> string, join: (string, string) -> string,
                                 workspace: string, q: string)
    ensures ScriptPath(rloc, join, workspace, ParentMarker + q) == rloc(q)
  {
  }

  /** A path that does not begin with the marker is always joined under the
      workspace name, whatever else it contains. */
  lemma WorkspacePathIsJoined(rloc: string -> string, join: (string, string) -> string,
                              workspace: string, p: string)
    requires !StartsWithParent(p)
    ensures ScriptPath(rloc, join, workspace, p) == rloc(join(workspace, p))
  {
  }

  /** The two cases are told apart by the first three characters alone. */
  lemma MarkerDecidesCase(p: string)
    ensures StartsWithParent(p) <==> exists q :: p == ParentMarker + q
  {
    if StartsWithParent(p) {
      assert p == ParentMarker + p[3..];
    }
    if exists q :: p == ParentMarker + q {
      var q :| p == ParentMarker + q;
      assert p[..3] == ParentMarker;
    }
  }

  /** main's rewrite of every command path: each path is resolved and
      nothing else about a command changes. */
  function Resolved(cmds: seq<CommandBlob>, rloc: string -> string,
                    join: (string, string) -> string, workspace: string): (r: seq<CommandBlob>)
    ensures |r| == |cmds|
    ensures forall i :: 0 <= i < |r| ==>
      r[i].path == ScriptPath(rloc, join, workspace, cmds[i].path) &&
      r[i].tag == cmds[i].tag && r[i].args == cmds[i].args && r[i].env == cmds[i].env
  {
    seq(|cmds|, i requires 0 <= i < |cmds| =>
      cmds[i].(path := ScriptPath(rloc, join, workspace, cmds[i].path)))
  }
}
