/**
 * `workspace new`: build the Workspace resource from the command's options,
 * create it, wait until its Healthy condition is True and only then write the
 * local marker file naming the new workspace. Also the watch condition that
 * decides health from a watch event.
 */
module WorkspaceNew {
  import opened Api

  /** A Healthy condition with status True or False: the kind of condition that decides the wait. */
  predicate IsVerdict(c: Condition) {
    c.conditionType == ConditionHealthy && (c.status == ConditionTrue || c.status == ConditionFalse)
  }

  /** No condition before position i decides the wait. */
  predicate NoVerdictBefore(conds: seq<Condition>, i: nat)
    requires i <= |conds|
  {
    forall j :: 0 <= j < i ==> !IsVerdict(conds[j])
  }

  /** What a deciding condition means: done when True, its message as the error when False. */
  function Verdict(c: Condition): CondResult {
    if c.status == ConditionTrue then CondResult(true, None)
    else CondResult(false, Some(ConditionMessage(c.message)))
  }

  /** The position of the first deciding condition, or |conds| when there is none. */
  function FirstVerdict(conds: seq<Condition>): (i: nat)
    ensures i <= |conds| && NoVerdictBefore(conds, i)
    ensures i < |conds| ==> IsVerdict(conds[i])
  {
    if |conds| == 0 then 0
    else if IsVerdict(conds[0]) then 0
    else
      var i := 1 + FirstVerdict(conds[1..]);
      assert forall j :: 1 <= j < i ==> conds[j] == conds[1..][j - 1];
      i
  }

  /** The loop over the conditions in `workspaceHealthy`: the first deciding condition decides. */
  function ScanConditions(conds: seq<Condition>): (r: CondResult)
    ensures var i := FirstVerdict(conds);
      r == if i < |conds| then Verdict(conds[i]) else CondResult(false, None)
  {
    if |conds| == 0 then
      CondResult(false, None)
    else if conds[0].conditionType == ConditionHealthy && conds[0].status == ConditionTrue then
      CondResult(true, None)
    else if conds[0].conditionType == ConditionHealthy && conds[0].status == ConditionFalse then
      CondResult(false, Some(ConditionMessage(conds[0].message)))
    else
      var i := FirstVerdict(conds[1..]);
      assert i < |conds| - 1 ==> conds[1..][i] == conds[i + 1];
      ScanConditions(conds[1..])
  }

  /** The watch condition `workspaceHealthy`. */
  function WorkspaceHealthy(e: Event): (r: CondResult)
    // a deletion is reported as NotFound before the object is looked at
    ensures e.eventType == Deleted ==> r == CondResult(false, Some(NotFound("workspaces")))
    // anything but a Workspace, and a Workspace with nil conditions, leaves the wait going
    ensures e.eventType != Deleted && !e.obj.WorkspaceObject? ==> r == CondResult(false, None)
    ensures e.eventType != Deleted && e.obj.WorkspaceObject? && e.obj.workspace.conditions.None? ==>
      r == CondResult(false, None)
    ensures e.eventType != Deleted && e.obj.WorkspaceObject? && e.obj.workspace.conditions.Some? ==>
      r == ScanConditions(e.obj.workspace.conditions.value)
  {
    if e.eventType == Deleted then
      CondResult(false, Some(NotFound("workspaces")))
    else
      match e.obj
      case WorkspaceObject(ws) =>
        if ws.conditions.None? then CondResult(false, None) else ScanConditions(ws.conditions.value)
      case _ => CondResult(false, None)
  }

  /** A deciding condition with no deciding condition before it is the first one. */
  lemma {:induction false} FirstVerdictAt(conds: seq<Condition>, i: nat)
    requires i < |conds| && IsVerdict(conds[i]) && NoVerdictBefore(conds, i)
    ensures FirstVerdict(conds) == i
  {
    if i > 0 {
      assert !IsVerdict(conds[0]);
      assert NoVerdictBefore(conds[1..], i - 1) by {
        forall j | 0 <= j < i - 1 ensures !IsVerdict(conds[1..][j]) {
          assert conds[1..][j] == conds[j + 1];
        }
      }
      FirstVerdictAt(conds[1..], i - 1);
    }
  }

  /**
   * Health is reached exactly at a Healthy condition with status True that no
   * earlier condition pre-empts; a Healthy condition with status False so
   * placed fails the wait with its message; with no deciding condition the
   * wait goes on without error.
   */
  lemma HealthyIff(conds: seq<Condition>)
    ensures ScanConditions(conds).done <==>
      exists i :: 0 <= i < |conds| && IsVerdict(conds[i]) && NoVerdictBefore(conds, i)
        && conds[i].status == ConditionTrue
    ensures forall i ::
      (0 <= i < |conds| && IsVerdict(conds[i]) && NoVerdictBefore(conds, i)
       && conds[i].status == ConditionFalse) ==>
      ScanConditions(conds) == CondResult(false, Some(ConditionMessage(conds[i].message)))
    ensures NoVerdictBefore(conds, |conds|) ==> ScanConditions(conds) == CondResult(false, None)
    ensures !(ScanConditions(conds).done && ScanConditions(conds).err.Some?)
  {
    var k := FirstVerdict(conds);
    if k < |conds| {
      assert IsVerdict(conds[k]) && NoVerdictBefore(conds, k);
    }
    forall i | 0 <= i < |conds| && IsVerdict(conds[i]) && NoVerdictBefore(conds, i)
      ensures FirstVerdict(conds) == i
    {
      FirstVerdictAt(conds, i);
    }
  }

  /** Conditions of other types, and Healthy conditions with status Unknown, are passed over. */
  lemma {:induction false} UndecidedSkipped(c: Condition, rest: seq<Condition>)
    requires !IsVerdict(c)
    ensures ScanConditions([c] + rest) == ScanConditions(rest)
  {
    assert ([c] + rest)[1..] == rest;
  }

  /** The answers of the outside world to the steps of `doNewWorkspace`. */
  datatype NewWorkspaceWorld = NewWorkspaceWorld(
    options: Option<Error>,  // reading the options into the struct
    clients: Option<Error>,  // loading the kubeconfig, building the two clients
    create: Option<Error>,   // creating the Workspace resource
    wait: Option<Error>,     // waiting until the Workspace is healthy
    write: Option<Error>)    // writing the marker file

  /** Options and clients are in place, so the workspace can be created. */
  predicate Ready(world: NewWorkspaceWorld) {
    world.options.None? && world.clients.None?
  }

  /** The calls `doNewWorkspace` makes on the outside world. */
  datatype Action =
    | Create(ws: Workspace)
    | Announce(name: string, namespace: string)
    | WaitHealthy(name: string, namespace: string)
    | WriteMarker(path: string, namespace: string, name: string)

  /** The `newWorkspaceCmd` struct with its flags. */
  class NewWorkspaceCmd {
    var name: string
    var namespace: string
    var path: string
    var cacheSize: string
    var storageClass: string
    var noSecret: bool
    var secret: string
    var serviceAccount: string

    constructor (namespace: string, path: string, cacheSize: string, storageClass: string,
                 noSecret: bool, secret: string, serviceAccount: string)
      ensures this.name == "" && this.namespace == namespace && this.path == path
      ensures this.cacheSize == cacheSize && this.storageClass == storageClass
      ensures this.noSecret == noSecret && this.secret == secret && this.serviceAccount == serviceAccount
    {
      this.name := "";
      this.namespace := namespace;
      this.path := path;
      this.cacheSize := cacheSize;
      this.storageClass := storageClass;
      this.noSecret := noSecret;
      this.secret := secret;
      this.serviceAccount := serviceAccount;
    }

    /**
     * The Workspace resource the options describe: name and namespace from
     * the command, the app label, the secret unless disabled, and the other
     * fields equal to their options (an empty option leaves the zero value in
     * place, which is the empty option itself); no status yet.
     */
    predicate FromOptions(ws: Workspace)
      reads this
    {
      && ws.meta.name == name && ws.meta.namespace == namespace
      && ws.meta.labels == map["app" := "stok"] && ws.meta.annotations == None
      && ws.spec.secretName == (if noSecret then "" else secret)
      && ws.spec.serviceAccountName == serviceAccount
      && ws.spec.cache == CacheSpec(cacheSize, storageClass)
      && ws.conditions == None
    }

    /**
     * `createWorkspace`: the resource as built from the options (the
     * creation call's error is the parameter `createErr`).
     */
    method CreateWorkspace(createErr: Option<Error>) returns (ws: Workspace, err: Option<Error>)
      ensures FromOptions(ws)
      ensures err == createErr
    {
      ws := Workspace(
        ObjectMeta(name, namespace, map["app" := "stok"], None),
        WorkspaceSpec("", "", CacheSpec("", "")),
        None);

      if !noSecret {
        ws := ws.(spec := ws.spec.(secretName := secret));
      }
      if serviceAccount != "" {
        ws := ws.(spec := ws.spec.(serviceAccountName := serviceAccount));
      }
      if cacheSize != "" {
        ws := ws.(spec := ws.spec.(cache := ws.spec.cache.(size := cacheSize)));
      }
      if storageClass != "" {
        ws := ws.(spec := ws.spec.(cache := ws.spec.cache.(storageClass := storageClass)));
      }

      err := createErr;
    }

    /** `doNewWorkspace`: create, wait for health, then write the marker. */
    method DoNewWorkspace(args: seq<string>, world: NewWorkspaceWorld)
      returns (err: Option<Error>, trace: seq<Action>)
      requires |args| == 1
      modifies this`name
      ensures world.options.Some? ==> err == world.options && trace == [] && name == old(name)
      ensures world.options.None? ==> name == args[0]
      // the marker is written only after creation and the health wait both succeeded
      ensures WriteMarker(path, namespace, name) in trace <==>
        world.options.None? && world.clients.None? && world.create.None? && world.wait.None?
      ensures world.options.None? && world.clients.Some? ==> trace == [] && err == world.clients
      // what is created is the resource the options describe, named by the argument
      ensures Ready(world) ==>
        |trace| >= 1 && trace[0].Create? && FromOptions(trace[0].ws) && trace[0].ws.meta.name == args[0]
      ensures Ready(world) && world.create.Some? ==> |trace| == 1 && err == world.create
      ensures Ready(world) && world.create.None? ==>
        |trace| >= 3 && trace[1] == Announce(name, namespace) && trace[2] == WaitHealthy(name, namespace)
      ensures Ready(world) && world.create.None? && world.wait.Some? ==>
        |trace| == 3 && err == world.wait
      ensures Ready(world) && world.create.None? && world.wait.None? ==>
        |trace| == 4 && trace[3] == WriteMarker(path, namespace, name) && err == world.write
    {
      trace := [];
      if world.options.Some? {
        return world.options, trace;
      }
      name := args[0];
      if world.clients.Some? {
        return world.clients, trace;
      }

      var ws, createErr := CreateWorkspace(world.create);
      trace := trace + [Create(ws)];
      if createErr.Some? {
        return createErr, trace;
      }

      trace := trace + [Announce(name, namespace)];

      trace := trace + [WaitHealthy(ws.meta.name, ws.meta.namespace)];
      if world.wait.Some? {
        return world.wait, trace;
      }

      trace := trace + [WriteMarker(path, namespace, name)];
      return world.write, trace;
    }
  }
}
