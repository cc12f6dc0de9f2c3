/**
 * The cluster records the core works on, treated as plain values: object
 * metadata with its (possibly nil) annotations map, Workspace resources with
 * their spec and status conditions, command resources, and watch events.
 * Also the error values the core returns and the two reserved constants.
 */
module Api {

  datatype Option<+T> = None | Some(value: T)

  datatype Result<+T> = Ok(value: T) | Err(error: Error)

  /**
   * Every error the modelled code can return, each with the text Go gives
   * it. A condition's message is used as a format string in Go; Message
   * gives the text as it reads when it holds no '%'.
   */
  datatype Error =
    | ResourceDeleted                 // fmt.Errorf("resource deleted")
    | NotFound(resource: string)      // errors.NewNotFound for a group resource, empty name
    | ConditionMessage(text: string)  // fmt.Errorf(condition.Message)
    | MissingKindFlag
    | InvalidKind(kind: string)
    | WaitTimeout
    | PatternMismatch(pattern: string)
    | IndexOutOfRange                 // the runtime panic of indexing past a slice's end
    | External(cause: string)         // an error handed back by I/O or a cluster call
  {
    function Message(): (r: string)
      // only the texts taken verbatim from elsewhere can be empty
      ensures !ConditionMessage? && !External? ==> |r| > 0
    {
      match this
      case ResourceDeleted => "resource deleted"
      case NotFound(resource) => resource + " \"\" not found"
      case ConditionMessage(text) => text
      case MissingKindFlag => "missing flag: --kind <kind>"
      case InvalidKind(kind) => "invalid kind: " + kind
      case WaitTimeout => "timeout exceeded waiting for client hold to be released"
      case PatternMismatch(pattern) => "workspace must match pattern " + pattern
      case IndexOutOfRange => "index out of range"
      case External(cause) => cause
    }
  }

  /** The two ways `validate` rejects a kind read differently, whatever the kind. */
  lemma KindErrorsDistinct(kind: string)
    ensures InvalidKind(kind).Message() != MissingKindFlag.Message()
  {
    assert InvalidKind(kind).Message()[0] == 'i';
  }

  /** The reserved annotation whose presence on a command holds the runner back. */
  const WaitAnnotationKey: string := "stok.goalspike.com/wait"

  /** The condition type a Workspace controller flips once the workspace is usable. */
  const ConditionHealthy: string := "Healthy"

  /** An annotations map as Go sees it: nil, or a map (possibly empty). */
  type Annotations = Option<map<string, string>>

  /** Go's comma-ok map index `v, ok := m[key]`; a nil map reads as empty. */
  function Lookup(m: Annotations, key: string): (string, bool) {
    if m.Some? && key in m.value then (m.value[key], true) else ("", false)
  }

  datatype ObjectMeta = ObjectMeta(
    name: string,
    namespace: string,
    labels: map<string, string>,
    annotations: Annotations)

  datatype ConditionStatus = ConditionTrue | ConditionFalse | ConditionUnknown

  datatype Condition = Condition(
    conditionType: string,
    status: ConditionStatus,
    reason: string,
    message: string)

  datatype CacheSpec = CacheSpec(size: string, storageClass: string)

  datatype WorkspaceSpec = WorkspaceSpec(
    secretName: string,
    serviceAccountName: string,
    cache: CacheSpec)

  /** A Workspace resource; `conditions` is None for a nil slice. */
  datatype Workspace = Workspace(
    meta: ObjectMeta,
    spec: WorkspaceSpec,
    conditions: Option<seq<Condition>>)

  /**
   * What a watch event or informer can deliver: a command resource, a
   * Workspace, any other object carrying object metadata, or a runtime
   * object without object metadata (such as the status of an error event).
   */
  datatype Object =
    | CommandObject(meta: ObjectMeta)
    | WorkspaceObject(workspace: Workspace)
    | OtherObject(meta: ObjectMeta)
    | NonMetaObject
  {
    /** Whether the object satisfies metav1.Object. */
    predicate HasObjectMeta() {
      !NonMetaObject?
    }

    function Meta(): ObjectMeta
      requires HasObjectMeta()
    {
      if WorkspaceObject? then workspace.meta else meta
    }
  }

  datatype EventType = Added | Modified | Deleted | Bookmark | ErrorEvent

  datatype Event = Event(eventType: EventType, obj: Object)

  /** The `(done bool, err error)` pair a watch condition function returns. */
  datatype CondResult = CondResult(done: bool, err: Option<Error>)

  /** The lock of the handshake: held while the annotations map exists and carries the key. */
  predicate LockHeld(annotations: Annotations) {
    annotations.Some? && WaitAnnotationKey in annotations.value
  }
}
