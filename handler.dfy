/**
 * The watch condition the runner uses to learn that the submitting client
 * has released the lock on its command: the release is the disappearance of
 * the reserved wait annotation, and the annotation's value is never read.
 */
module Handler {
  import opened Api

  /** The watch condition function `isSyncHandler`. */
  function IsSyncHandler(e: Event): (r: CondResult)
    // a deletion ends the wait with an error before the object is looked at
    ensures e.eventType == Deleted ==> r == CondResult(false, Some(ResourceDeleted))
    ensures e.eventType != Deleted ==> r.err == None
    // otherwise the wait is over exactly when an object with metadata is no longer locked
    ensures r.done <==>
      e.eventType != Deleted && e.obj.HasObjectMeta() && !LockHeld(e.obj.Meta().annotations)
    ensures !(r.done && r.err.Some?)
  {
    if e.eventType == Deleted then
      CondResult(false, Some(ResourceDeleted))
    else if e.obj.HasObjectMeta() then
      var annos := e.obj.Meta().annotations;
      if annos.Some? then
        if WaitAnnotationKey !in annos.value then CondResult(true, None) else CondResult(false, None)
      else
        CondResult(true, None)
    else
      CondResult(false, None)
  }

  /** Whatever value the wait annotation has, an object carrying it is still locked. */
  lemma AnnotationValueIgnored(t: EventType, meta: ObjectMeta, m: map<string, string>, v: string, w: string)
    requires t != Deleted
    ensures
      var held := meta.(annotations := Some(m[WaitAnnotationKey := v]));
      var other := meta.(annotations := Some(m[WaitAnnotationKey := w]));
      IsSyncHandler(Event(t, CommandObject(held))) == IsSyncHandler(Event(t, CommandObject(other)))
        == CondResult(false, None)
  {
  }

  /** A nil annotations map and a map without the key both release the lock. */
  lemma NilOrMissingKeyReleases(t: EventType, meta: ObjectMeta, m: map<string, string>)
    requires t != Deleted
    requires WaitAnnotationKey !in m
    ensures IsSyncHandler(Event(t, OtherObject(meta.(annotations := None)))) == CondResult(true, None)
    ensures IsSyncHandler(Event(t, OtherObject(meta.(annotations := Some(m))))) == CondResult(true, None)
  {
  }
}
