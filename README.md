# stok: runner handshake, workspace health and workspace identifiers

This project models the decision logic of stok, a CLI that runs Terraform
commands inside Kubernetes Pods, and proves properties of it. The model
covers five parts:

- **The lock handshake.** The client puts the reserved wait annotation on its
  command resource. The runner in the Pod waits until that annotation is gone.
  `Handler.IsSyncHandler` is the watch condition that tests for this.
  `Runner.HandleSemaphore` is the runner's wait loop, run over an explicit
  sequence of events. The timer firing and the cache failing are events too.
- **The runner.** `Runner.RunnerCmd.DoRunnerCmd` runs the steps in a fixed
  order: validate the kind, record the arguments, extract the tarball, wait
  (unless waiting is disabled), run. The outside world is a `RunnerWorld`
  record of answers. The method returns the calls it made as a trace and
  equals the reference function `Runner.Plan`. The `Plan*` lemmas state what
  the order guarantees.
- **Workspace creation.** `WorkspaceNew.WorkspaceHealthy` is the watch
  condition that decides health from the first Healthy condition with
  status True or False. `NewWorkspaceCmd.CreateWorkspace` builds the
  Workspace resource from the command's options, updating it in place.
  `NewWorkspaceCmd.DoNewWorkspace` creates the resource, waits, and only then
  writes the marker file.
- **Workspace identifiers.** `Env` holds the `namespace/workspace` identifier:
  - validation against `^[a-z0-9-]+/[a-z0-9-]+$`, as an explicit
    character-class check
  - parsing with `strings.Split`, modelled by `Env.Split`
  - defaulting the namespace
  - the two accessors and their round trips
- **Listing.** `WorkspaceList.ListCmd.RunE` reads the current workspace from
  the marker file, falling back to default/default, and stars the matching
  workspace in one output line per workspace.

Modules: `Api` holds the shared records (object metadata, Workspace, events,
errors). Then `Handler`, `Runner`, `WorkspaceNew`, `Env` and `WorkspaceList`
follow the source files.

A marker without a '/' makes Go's `Workspace()` index past the end of its
split and panic (pkg/env/env.go:55-57). `Env.StokEnv.Workspace` requires a
'/'. `ListCmd.RunE` turns such a marker into the error `IndexOutOfRange`, after
the namespace has already been overwritten, as in the Go code.

## Model

| member | source | states |
|---|---|---|
| Api.Error.Message | cmd/runner.go:105-109 | Every error text of the modelled code is non-empty, except a condition's message and an outside error, which are taken over verbatim. |
| Api.KindErrorsDistinct | cmd/runner.go:104-110 | The missing-flag and invalid-kind errors read differently, whatever the kind. |
| Handler.IsSyncHandler | pkg/apps/runner/handler.go:11-32 | A Deleted event gives (false, "resource deleted"). Any other event gives no error. Done holds exactly for a non-deleted object with metadata whose annotations are nil or lack the wait key. Done never comes with an error. |
| Handler.AnnotationValueIgnored | pkg/apps/runner/handler.go:22-25 | Whatever value the wait key holds, the result is (false, nil): only the key's presence matters. |
| Handler.NilOrMissingKeyReleases | pkg/apps/runner/handler.go:19-28 | A nil annotations map and a map without the key both give (true, nil). |
| Runner.ContainsString | cmd/runner.go:108 | The membership test is exactly sequence membership. |
| Runner.Validate | cmd/runner.go:103-113 | An empty kind gives the missing-flag error. A non-empty kind is accepted iff it is a command kind or "Workspace"; otherwise the error is InvalidKind(kind). |
| Runner.Step | cmd/runner.go:156-180 | One turn of the select loop. A delivery releases iff it is a command with the same name and namespace and no wait key. It is skipped iff it is anything else. A timer gives the timeout error. A cache failure gives its own error. |
| Runner.Stop | cmd/runner.go:155-181 | The index of the first event that ends the loop. Every earlier event is skipped. |
| Runner.StopIsFirst | cmd/runner.go:155-181 | Any index with only skipped events before it and an ending event at it is Stop. |
| Runner.HandleSemaphore | cmd/runner.go:131-182 | A setup error is returned before any event is read. Otherwise the loop ends with the outcome of the first ending event, having read exactly up to it. It reports StillWaiting after reading every event if none ends it. |
| Runner.ReleasedIff | cmd/runner.go:157-174 | The wait succeeds iff some event delivers the awaited command without the wait key and every earlier event was skipped. |
| Runner.NeverReleasedWhileHeld | cmd/runner.go:165-174 | While every delivery of the awaited command still carries the key, the wait never succeeds. |
| Runner.TimeoutBeforeRelease | cmd/runner.go:176-177 | A timer event preceded only by skipped events ends the wait with the timeout error. |
| Runner.AgreesWithSyncHandler | cmd/runner.go:165 | For the awaited command, the loop releases iff IsSyncHandler reports done, and skips iff IsSyncHandler gives (false, nil). |
| Runner.Plan | cmd/runner.go:70-101 | The reference definition of doRunnerCmd's steps. It makes at most the four calls, and the run, when made, is the last one. |
| Runner.PlanInOrder | cmd/runner.go:70-101 | Each step is called at most once, in the order extract, client, wait, run. |
| Runner.PlanInvalidKind | cmd/runner.go:71-73 | A kind that fails validation ends the run with that error before any call. |
| Runner.PlanExtracts | cmd/runner.go:77-83 | The tarball is extracted iff the kind is valid and a tarball is named. |
| Runner.PlanWaits | cmd/runner.go:85-94 | The client and the wait are reached only when waiting is enabled. The wait is entered iff validation, extraction and client creation succeeded. |
| Runner.PlanRuns | cmd/runner.go:85-98 | The command runs iff validation and extraction succeeded and the wait was skipped or let it through. |
| Runner.PlanExit | cmd/runner.go:91-100 | Success iff the command ran without error. Blocked iff the wait was entered with a working cache and no event ended it. |
| Runner.RunnerCmd.constructor | cmd/runner.go:22-36 | The flags are stored and no arguments are recorded yet. |
| Runner.RunnerCmd.DoRunnerCmd | cmd/runner.go:70-101 | Exit and calls are those of Plan for the command's flags. The arguments are recorded iff the kind is valid. |
| WorkspaceNew.FirstVerdict | cmd/workspace_new.go:165-180 | The position of the first Healthy condition with status True or False, with none before it (the length when there is none). |
| WorkspaceNew.ScanConditions | cmd/workspace_new.go:165-180 | The scan's result is decided by the first such condition, and is (false, nil) when there is none. |
| WorkspaceNew.WorkspaceHealthy | cmd/workspace_new.go:154-183 | A Deleted event gives NotFound for "workspaces" before the object is looked at. A non-Workspace, or nil conditions, gives (false, nil). Otherwise the conditions are scanned. |
| WorkspaceNew.FirstVerdictAt | cmd/workspace_new.go:165-180 | A deciding condition with none before it is the first one. |
| WorkspaceNew.HealthyIff | cmd/workspace_new.go:165-180 | Done iff the first deciding condition is True. A False one first gives its message as the error. No deciding condition gives (false, nil). Done never comes with an error. |
| WorkspaceNew.UndecidedSkipped | cmd/workspace_new.go:166-179 | Other condition types, and a Healthy condition with status Unknown, are passed over. |
| WorkspaceNew.NewWorkspaceCmd.constructor | cmd/workspace_new.go:25-38 | The options are stored and the name is empty. |
| WorkspaceNew.NewWorkspaceCmd.CreateWorkspace | cmd/workspace_new.go:114-144 | The resource satisfies FromOptions. Name and namespace come from the command. Labels are exactly {"app": "stok"}. The secret is the option unless NoSecret, when it is empty. The service account, cache size and storage class equal their options. There are no conditions. The creation error is passed on. |
| WorkspaceNew.NewWorkspaceCmd.DoNewWorkspace | cmd/workspace_new.go:65-112 | An options error stops before the name is set. The marker is written iff options, clients, creation and the health wait all succeeded. Creation comes first, of the resource FromOptions describes under the argument's name. Then come the announcement and the wait, in that order, and the first error is returned. |
| Env.IndexOf | pkg/env/env.go:28 | The position of the first occurrence, or the length when there is none. |
| Env.PatternAtFirstSlash | pkg/env/env.go:17 | A matching identifier can only split at its first '/'. |
| Env.MatchesPattern | pkg/env/env.go:17 | The character-class scan accepts exactly the strings where some '/' splits two non-empty [a-z0-9-] names. |
| Env.Split | pkg/env/env.go:52 | There is always at least one part. There is exactly one part iff there is no '/'. No part contains '/'. |
| Env.SplitAtFirstSlash | pkg/env/env.go:28 | Splitting a/b with a slash-free a gives a followed by the parts of b. |
| Env.SplitOfValid | pkg/env/env.go:28-29 | A valid identifier splits into exactly its two names. |
| Env.NamespaceIsFirstField | pkg/env/env.go:51-53 | Namespace() is the text before the first '/', or the whole string. |
| Env.WorkspaceIsSecondField | pkg/env/env.go:55-57 | Workspace() is the text between the first '/' and the next '/' or the end. |
| Env.Validate | pkg/env/env.go:32-37 | No error exactly on strings of the pattern's language; otherwise the pattern-mismatch error. |
| Env.ValidateAndParse | pkg/env/env.go:24-30 | No error iff the string matches; then both results are names and join back to the input. Otherwise empty strings with the pattern error. |
| Env.NewStokEnv | pkg/env/env.go:47-49 | The identifier is the namespace, one '/', then the workspace: that is its length, and those are its pieces. |
| Env.StokEnv.Namespace | pkg/env/env.go:51-53 | The result holds no '/'. NamespaceIsFirstField places it before the first '/'. |
| Env.StokEnv.Workspace | pkg/env/env.go:55-57 | Defined only when the identifier has a '/'. The result holds no '/'. WorkspaceIsSecondField places it right after the first '/'. |
| Env.AccessorsRoundTrip | pkg/env/env.go:47-57 | For slash-free parts, the accessors of NewStokEnv(ns, ws) give back ns and ws. |
| Env.ParseRoundTrip | pkg/env/env.go:24-49 | For valid names, ValidateAndParse(NewStokEnv(ns, ws)) is (ns, ws, no error). |
| Env.ParseAgreesWithAccessors | pkg/env/env.go:24-57 | On every valid identifier, parsing gives what the two accessors give. |
| Env.WithOptionalNamespace | pkg/env/env.go:39-45 | "default/" is prefixed iff the input has no '/'; otherwise the input is kept. The result always has a '/'. |
| Env.WithOptionalNamespaceIdempotent | pkg/env/env.go:39-45 | Applying the defaulting twice equals applying it once. |
| Env.DefaultedNamespace | pkg/env/env.go:39-57 | A bare name reads back as namespace "default" with that workspace name. |
| WorkspaceList.Line | cmd/workspace/workspace_list.go:44-51 | The line is starred iff both namespace and name are the current ones. After the prefix it is a tab, namespace/name and a newline. |
| WorkspaceList.ListCmd.constructor | cmd/workspace/workspace_list.go:15-17 | The current workspace starts as default/default. |
| WorkspaceList.ListCmd.RunE | cmd/workspace/workspace_list.go:22-55 | A client error or a read error other than not-exist aborts with no output. A missing marker keeps the current workspace. A present marker sets it to its two components. A list error is returned. Otherwise there is one line per workspace, in list order, each as Line gives it. |
| WorkspaceList.AtMostOneStarred | cmd/workspace/workspace_list.go:46-50 | Among workspaces with distinct identities, at most one line is starred. |
| WorkspaceList.TestMarkerComponents | cmd/workspace_list_test.go:30 | The marker written by the test reads back as namespace "default" and workspace "workspace-1". |
| WorkspaceList.ListingWithMarker | cmd/workspace_list_test.go:44 | With that marker, the lines are "*\tdefault/workspace-1\n" and "\tdev/workspace-2\n". |
| WorkspaceList.ListingWithoutMarker | cmd/workspace_list_test.go:61 | Without a marker, the lines are "\tdefault/workspace-1\n" and "\tdev/workspace-2\n", with none starred. |
| WorkspaceList.ListWithMarkerFile | cmd/workspace_list_test.go:28-45 | A fresh command run with the marker default/workspace-1 over the two test workspaces returns no error and exactly the two lines "*\tdefault/workspace-1\n" and "\tdev/workspace-2\n". |
| WorkspaceList.ListWithoutMarkerFile | cmd/workspace_list_test.go:47-62 | A fresh command run without a marker file returns no error and exactly the two unstarred lines. |

## Left out

- Constants. `v1alpha1.WaitAnnotationKey` and `v1alpha1.ConditionHealthy` are defined in the `v1alpha1` API package, which is not modelled. `Api` uses "stok.goalspike.com/wait" and "Healthy", and no property depends on either value.
- Command kinds. `command.CommandKinds` is not part of this model and is the parameter `commandKinds`. `command.RunnerArgsForKind` and the `run` subprocess (os/exec) are one `Run` call, whose error is a world input.
- Tarball extraction. `extractTarball` and `util.Extract` do file I/O, which is left out; extraction is one `Extract` call whose error is a world input.
- Runner.HandleSemaphore: the cache, the informer, their goroutine, the `done`/`stop` channels and the real timer are concurrency and are left out. They become a sequence of events. Go's `select` picks among ready channels in an unspecified order; the sequence fixes one such order. The timeout duration is not modelled: a timeout is a `TimerFired` event.
- Runner.HandleSemaphore: when the events run out, Go would block until the timer fires. The model reports `StillWaiting`, and the runner exits as `Blocked`.
- Setup failures. The creation of the cache and of the informer are one setup error.
- WorkspaceNew. Loading the kubeconfig and building the controller-runtime and REST clients are one `clients` error. `unmarshalV` is the `options` error. `waitUntil` is not part of this model, so the health wait is one call whose error is a world input; `WorkspaceHealthy` is the condition it would evaluate. `writeEnvironmentFile` is one `WriteMarker` call.
- WorkspaceNew.WorkspaceHealthy: Go builds the False-condition error with `fmt.Errorf(message)`, which uses the message as a format string. The model's error text equals the message only when it holds no '%'. A message with '%' reads differently in Go: "50%%" prints as "50%", and "disk 100% full" prints as "disk 100%!f(MISSING)ull". Go's format-directive rendering is not modelled.
- WorkspaceNew.NewWorkspaceCmd.DoNewWorkspace: assumes `waitUntil` returns a Workspace object even when it fails, so that the unchecked type assertion in `waitUntilWorkspaceHealthy` (cmd/workspace_new.go:148) succeeds. The wait's error is then returned as it is. If `waitUntil` returned a nil object with its error, Go would panic there instead. `waitUntil` is not part of this model, so that case is not modelled.
- Runner.Step: assumes a Workspace resource does not satisfy `command.Interface`, so a delivered Workspace is skipped like any other non-command object. `validate` accepts the kind "Workspace", and the cache then watches Workspace resources. A Workspace-kind runner with waiting on therefore ends only by the timer or a cache failure. Whether the Workspace type implements `command.Interface` is defined outside the modelled files.
- WorkspaceNew.NewWorkspaceCmd.DoNewWorkspace: requires exactly one argument, as `cobra.ExactArgs(1)` guarantees before RunE runs.
- Env. `ReadStokEnv`, `Write` and `WriteEnvFile` are filesystem I/O and are left out. The regular-expression engine is replaced by a character-class predicate for the language `[a-z0-9-]+/[a-z0-9-]+`.
- `strings.Split` is modelled only for the one-character separator "/", the one the modelled code uses.
- WorkspaceList. `opts.Create`, the cluster list call and writing to `opts.Out` are inputs and outputs. The listing is an input sequence and the output is its sequence of lines. `env.ReadEtokEnv` is treated as returning the same `namespace/workspace` marker type as pkg/env/env.go, and its result is the `MarkerRead` input.
- Everywhere. Cobra flag parsing and defaults, logging, the printed announcement text, the scheme registration, and the "runner: %w" wrapping of the runner's error are left out.
- Other files. pkg/generate/operator.go (constant manifests), the generated fake clientset, pkg/controller/output/output_controller.go (controller registration; `command.Reconcile` is not part of this model), cmd/command_import.go and cmd/workspace/workspace.go (command registration) are not part of this model.
