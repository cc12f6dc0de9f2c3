/**
 * `workspace list`: one line per workspace in the cluster, the current one
 * (named by the local marker file, default/default when there is none)
 * marked with a star. The cluster list call and the marker file are inputs;
 * what is written to the output is returned as its sequence of lines.
 */
module WorkspaceList {
  import opened Api
  import Env

  /** What reading the marker file gave. */
  datatype MarkerRead =
    | Missing                  // the file does not exist
    | ReadFailed(err: Error)   // any other read error
    | Present(env: Env.StokEnv)

  /** Whether a listed workspace is the current one. */
  predicate IsCurrent(ws: Workspace, namespace: string, workspace: string) {
    ws.meta.namespace == namespace && ws.meta.name == workspace
  }

  /** One output line, `prefix\tnamespace/name\n`, starred exactly for the current workspace. */
  function Line(ws: Workspace, namespace: string, workspace: string): (r: string)
    ensures |r| > 0 && (r[0] == '*' <==> IsCurrent(ws, namespace, workspace))
    ensures r[if IsCurrent(ws, namespace, workspace) then 1 else 0..]
      == "\t" + ws.meta.namespace + "/" + ws.meta.name + "\n"
  {
    var prefix := if ws.meta.namespace == namespace && ws.meta.name == workspace then "*" else "";
    prefix + "\t" + ws.meta.namespace + "/" + ws.meta.name + "\n"
  }

  /** The command as built by `ListCmd`: the current-workspace variables start at default/default. */
  class ListCmd {
    var namespace: string
    var workspace: string

    constructor ()
      ensures namespace == Env.DefaultNamespace && workspace == "default"
    {
      namespace := Env.DefaultNamespace;
      workspace := "default";
    }

    /**
     * The command's RunE: `clientErr` is the error of building the client,
     * `marker` the result of reading the marker file, `listing` that of
     * listing the workspaces in all namespaces.
     */
    method RunE(clientErr: Option<Error>, marker: MarkerRead, listing: Result<seq<Workspace>>)
      returns (err: Option<Error>, lines: seq<string>)
      modifies this`namespace, this`workspace
      ensures err.None? ==> clientErr.None? && !marker.ReadFailed? && listing.Ok?
      ensures clientErr.Some? ==>
        err == clientErr && lines == [] && namespace == old(namespace) && workspace == old(workspace)
      // a missing marker is not an error and leaves the current workspace as it was
      ensures clientErr.None? && marker.Missing? ==>
        namespace == old(namespace) && workspace == old(workspace)
      // any other read error aborts before anything is listed
      ensures clientErr.None? && marker.ReadFailed? ==>
        err == Some(marker.err) && lines == [] && namespace == old(namespace) && workspace == old(workspace)
      ensures clientErr.None? && marker.Present? && '/' in marker.env.value ==>
        namespace == marker.env.Namespace() && workspace == marker.env.Workspace()
      // a marker without '/' makes Workspace() index past the end of its split
      ensures clientErr.None? && marker.Present? && '/' !in marker.env.value ==>
        err == Some(IndexOutOfRange) && lines == []
        && namespace == marker.env.Namespace() && workspace == old(workspace)
      ensures clientErr.None? && (marker.Missing? || (marker.Present? && '/' in marker.env.value)) ==>
        match listing
        case Err(e) => err == Some(e) && lines == []
        case Ok(items) =>
          err == None && |lines| == |items|
          && forall k :: 0 <= k < |items| ==> lines[k] == Line(items[k], namespace, workspace)
    {
      lines := [];
      if clientErr.Some? {
        return clientErr, lines;
      }

      match marker {
        case Missing =>
        case ReadFailed(e) =>
          return Some(e), lines;
        case Present(env) =>
          namespace := env.Namespace();
          if '/' !in env.value {
            return Some(IndexOutOfRange), lines;
          }
          workspace := env.Workspace();
      }

      if listing.Err? {
        return Some(listing.error), lines;
      }
      var items := listing.value;

      var prefix: string;
      var i := 0;
      while i < |items|
        invariant 0 <= i <= |items|
        invariant |lines| == i
        invariant forall k :: 0 <= k < i ==> lines[k] == Line(items[k], namespace, workspace)
      {
        var ws := items[i];
        if ws.meta.namespace == namespace && ws.meta.name == workspace {
          prefix := "*";
        } else {
          prefix := "";
        }
        lines := lines + [prefix + "\t" + ws.meta.namespace + "/" + ws.meta.name + "\n"];
        i := i + 1;
      }
      return None, lines;
    }
  }

  /** Among workspaces with distinct identities, at most one line is starred. */
  lemma AtMostOneStarred(items: seq<Workspace>, namespace: string, workspace: string, i: nat, j: nat)
    requires forall a, b :: 0 <= a < b < |items| ==>
      (items[a].meta.namespace, items[a].meta.name) != (items[b].meta.namespace, items[b].meta.name)
    requires i < |items| && j < |items|
    requires Line(items[i], namespace, workspace)[0] == '*'
    requires Line(items[j], namespace, workspace)[0] == '*'
    ensures i == j
  {
  }

  /** The two workspaces of the listing test. */
  function TestWorkspace(namespace: string, name: string): Workspace {
    Workspace(ObjectMeta(name, namespace, map[], None), WorkspaceSpec("", "", CacheSpec("", "")), None)
  }

  /** The marker file the test writes: namespace default, workspace workspace-1. */
  function TestMarker(): Env.StokEnv {
    Env.NewStokEnv("default", "workspace-1")
  }

  /** The test's marker file content, read back through the accessors. */
  lemma {:induction false} TestMarkerComponents()
    ensures '/' in TestMarker().value
    ensures TestMarker().Namespace() == "default"
    ensures TestMarker().Workspace() == "workspace-1"
  {
    Env.AccessorsRoundTrip("default", "workspace-1");
  }

  /**
   * With the marker default/workspace-1 (whose components TestMarkerComponents
   * reads back), the first of the two test workspaces is starred: the output is
   * "*\tdefault/workspace-1\n" followed by "\tdev/workspace-2\n".
   */
  lemma ListingWithMarker()
    ensures Line(TestWorkspace("default", "workspace-1"), "default", "workspace-1")
      == "*" + "\t" + "default" + "/" + "workspace-1" + "\n"
    ensures Line(TestWorkspace("dev", "workspace-2"), "default", "workspace-1")
      == "" + "\t" + "dev" + "/" + "workspace-2" + "\n"
  {
  }

  /**
   * Without a marker the current workspace is default/default and neither is
   * starred: the output is "\tdefault/workspace-1\n" followed by "\tdev/workspace-2\n".
   */
  lemma ListingWithoutMarker()
    ensures Line(TestWorkspace("default", "workspace-1"), Env.DefaultNamespace, "default")
      == "" + "\t" + "default" + "/" + "workspace-1" + "\n"
    ensures Line(TestWorkspace("dev", "workspace-2"), Env.DefaultNamespace, "default")
      == "" + "\t" + "dev" + "/" + "workspace-2" + "\n"
  {
  }

  /** The test's run with the marker file: a fresh command lists both workspaces, the first starred. */
  method ListWithMarkerFile() returns (err: Option<Error>, lines: seq<string>)
    ensures err == None
    ensures |lines| == 2
    ensures lines[0] == "*" + "\t" + "default" + "/" + "workspace-1" + "\n"
    ensures lines[1] == "" + "\t" + "dev" + "/" + "workspace-2" + "\n"
  {
    var items := [TestWorkspace("default", "workspace-1"), TestWorkspace("dev", "workspace-2")];
    var cmd := new ListCmd();
    TestMarkerComponents();
    err, lines := cmd.RunE(None, Present(TestMarker()), Ok(items));
    assert cmd.namespace == "default" && cmd.workspace == "workspace-1";
    assert lines[0] == Line(items[0], "default", "workspace-1");
    assert lines[1] == Line(items[1], "default", "workspace-1");
    ListingWithMarker();
  }

  /** The test's run without a marker file: a fresh command lists both workspaces, none starred. */
  method ListWithoutMarkerFile() returns (err: Option<Error>, lines: seq<string>)
    ensures err == None
    ensures |lines| == 2
    ensures lines[0] == "" + "\t" + "default" + "/" + "workspace-1" + "\n"
    ensures lines[1] == "" + "\t" + "dev" + "/" + "workspace-2" + "\n"
  {
    var cmd := new ListCmd();
    err, lines := cmd.RunE(None, Missing,
      Ok([TestWorkspace("default", "workspace-1"), TestWorkspace("dev", "workspace-2")]));
    ListingWithoutMarker();
  }
}
