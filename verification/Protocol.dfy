/** The mount-pod reference protocol: publishers, unpublishers and reconcilers of one node interleave over the
    API server, one API call at a time.

    A world holds the server's pods, the striped lock table and, for every actor, its program counter with the
    snapshots it still uses. Every API call may fail. Outside actors may delete a pod at any time. */
module Protocol {
  import opened MountPod
  import opened Wrappers
  import PodLocks

  type ActorId = nat

  datatype Job =
    | Publish(target: Target, base: Annotations)                        // createOrAddRef
    | Unpublish(target: Target)                                         // JfsUnmount, pod mode
    | Reconcile(current: Pod, live: set<string>, errored: bool)         // PodDriver.Run

  datatype Pc =
    | WaitLock
    // createOrAddRef and AddRefOfMount
    | Poll | Create | AddGet | AddPatch(seen: Pod)
    // UmountTarget, GetMountRef and JUmount
    | FindPod | FindKey | RemoveKey | CountRefs | CheckIdle | StampIdle(at: int) | DeleteIdle
    // checkAnnotations
    | Inspect | Compare | Prune | Idle | Postpone(at: int) | Recount | Delete
    // unlocking: the actor is finished, or PodDriver.Run goes on to its handler
    | Release | ReleaseToHandle
    // podDeletedHandler; `fetched` is the pod that PodDriver.Run fetched for it
    | Fetch | Unfinalize(fetched: Pod) | WaitLockAgain(fetched: Pod) | PollGone(fetched: Pod)
    | Recreate(fetched: Pod) | MergeBack(fetched: Pod, found: Pod)
    | Done

  datatype Actor = Actor(name: Name, job: Job, pc: Pc)

  /** What one call meets: success or failure, whether the caller tries again (or, after `Unfinalize`, gives up),
      and the time. */
  datatype Choice = Choice(ok: bool, retry: bool, now: int)

  /** `vanished` records the references an incarnation had when the server dropped it. */
  datatype World = World(
    pods: map<Name, Pod>,
    nextUid: nat,
    locks: map<nat, ActorId>,
    actors: map<ActorId, Actor>,
    vanished: map<(Name, nat), set<Target>>)

  function At(pods: map<Name, Pod>, n: Name): (r: Option<Pod>) {
    if n in pods then Some(pods[n]) else None
  }

  // ---------- one step of each actor ----------

  function FirstPc(job: Job): (r: Pc) {
    match job
    case Publish(_, _) => Poll
    case Unpublish(_) => FindPod
    case Reconcile(_, _, _) => Inspect
  }

  function PublishStep(p: Option<Pod>, uid: nat, t: Target, base: Annotations, pc: Pc, c: Choice)
    : (r: (Option<Pod>, Pc))
  {
    match pc
    case Poll =>
      if !c.ok then (p, Release)
      else if p.None? then (p, Create)
      else if p.value.terminating then (p, Poll)
      else (p, AddGet)
    case Create =>
      if !c.ok || p.Some? then (p, Release)
      else (Some(Pod(uid, false, true, base[RefKey(t) := Text(t)])), Release)
    case AddGet =>
      if !c.ok || p.None? || p.value.terminating then (p, Release)
      else if RefKey(t) in p.value.annotations then (p, Release)
      else (p, AddPatch(p.value))
    case AddPatch(seen) =>
      if p.None? then (p, Release)
      else if !c.ok then (p, if c.retry then AddGet else Release)
      else (Some(p.value.(annotations := WithRef(seen.annotations, t))), Release)
    case _ => (p, pc)
  }

  function UnpublishStep(p: Option<Pod>, t: Target, pc: Pc, c: Choice): (r: (Option<Pod>, Pc)) {
    match pc
    case FindPod =>
      if !c.ok then (p, Release) else (p, if p.None? then CountRefs else FindKey)
    case FindKey =>
      if !c.ok || p.None? then (p, Release)
      else (p, if RefKey(t) in p.value.annotations then RemoveKey else CountRefs)
    case RemoveKey =>
      if p.None? then (p, Release)
      else if !c.ok then (p, if c.retry then FindKey else Release)
      else (
        match PatchRemove(p.value.annotations, [RefKey(t)])
        case None => (p, Release)
        case Some(a) => (Some(p.value.(annotations := a)), CountRefs))
    case CountRefs =>
      if !c.ok || RefsOf(p) != {} then (p, Release) else (p, CheckIdle)
    case CheckIdle =>
      if !c.ok || p.None? || RefsOf(p) != {} then (p, Release)
      else (
        match ShouldDelay(p.value.annotations, c.now)
        case Wait => (p, Release)
        case AddStamp(sec) => (p, StampIdle(sec))
        case DeleteNow => (p, DeleteIdle))
    case StampIdle(at) =>
      if p.None? then (p, Release)
      else if !c.ok then (p, if c.retry then CheckIdle else Release)
      else (Some(p.value.(annotations := WithStamp(p.value.annotations, at))), Release)
    case DeleteIdle =>
      if p.None? then (p, Release)
      else if !c.ok then (p, if c.retry then CheckIdle else Release)
      else (Some(p.value.(terminating := true)), Release)
    case _ => (p, pc)
  }

  /** `checkAnnotations`, on the run's snapshot. */
  function CheckStep(p: Option<Pod>, job: Job, pc: Pc, c: Choice): (r: (Option<Pod>, Pc))
    requires job.Reconcile?
  {
    var snapshot := job.current.annotations;
    var keys := PruneKeys(snapshot, job.live);
    match pc
    case Inspect => (p, if keys != {} then Compare else Idle)
    case Compare =>
      if !c.ok || p.None? || |Refs(p.value.annotations)| != |Refs(snapshot)| then (p, Release) else (p, Prune)
    case Prune =>
      if !c.ok || p.None? || !(keys <= p.value.annotations.Keys) then (p, Release)
      else (Some(p.value.(annotations := p.value.annotations - keys)), Idle)
    case Idle =>
      if LiveRefs(snapshot, job.live) != {} || job.current.terminating then (p, ReleaseToHandle)
      else (
        match ShouldDelay(snapshot, c.now)
        case Wait => (p, ReleaseToHandle)
        case AddStamp(sec) => (p, Postpone(sec))
        case DeleteNow => (p, Recount))
    case Postpone(at) =>
      if !c.ok || p.None? then (p, Release)
      else (Some(p.value.(annotations := WithStamp(p.value.annotations, at))), ReleaseToHandle)
    case Recount =>
      if !c.ok || p.None? || RefsOf(p) != {} then (p, Release) else (p, Delete)
    case Delete =>
      if !c.ok || p.None? then (p, Release)
      else (Some(p.value.(terminating := true)), ReleaseToHandle)
    case _ => (p, pc)
  }

  /** `podDeletedHandler`. */
  function HandlerStep(p: Option<Pod>, uid: nat, pc: Pc, c: Choice): (r: (Option<Pod>, Pc)) {
    match pc
    case Fetch =>
      if !c.ok || p.None? || !p.value.terminating || !p.value.finalizer then (p, Done)
      else (p, Unfinalize(p.value))
    case Unfinalize(fetched) =>
      if !c.ok || p.None? then (p, Done)
      else (
        Some(p.value.(finalizer := false)),
        if c.retry || Refs(fetched.annotations) == {} then Done else WaitLockAgain(fetched))
    case PollGone(fetched) =>
      if !c.ok then (p, Release)
      else if p.None? then (p, Recreate(fetched))
      else if p.value.terminating then (p, PollGone(fetched))
      else (p, MergeBack(fetched, p.value))
    case Recreate(fetched) =>
      if !c.ok || p.Some? then (p, Release)
      else (Some(Pod(uid, false, true, fetched.annotations)), Release)
    case MergeBack(fetched, found) =>
      if !c.ok || p.None? then (p, Release)
      else (Some(p.value.(annotations := WithRefsOf(found.annotations, fetched.annotations))), Release)
    case _ => (p, pc)
  }

  function ReconcileStep(p: Option<Pod>, uid: nat, job: Job, pc: Pc, c: Choice): (r: (Option<Pod>, Pc))
    requires job.Reconcile?
  {
    if CheckPc(pc) then CheckStep(p, job, pc, c) else HandlerStep(p, uid, pc, c)
  }

  function ActorStep(p: Option<Pod>, uid: nat, a: Actor, c: Choice): (r: (Option<Pod>, Pc)) {
    match a.job
    case Publish(t, base) => PublishStep(p, uid, t, base, a.pc, c)
    case Unpublish(t) => UnpublishStep(p, t, a.pc, c)
    case Reconcile(_, _, _) => ReconcileStep(p, uid, a.job, a.pc, c)
  }

  // ---------- program counters ----------

  predicate PublishPc(pc: Pc) { pc.Poll? || pc.Create? || pc.AddGet? || pc.AddPatch? }

  predicate UnpublishPc(pc: Pc) {
    pc.FindPod? || pc.FindKey? || pc.RemoveKey? || pc.CountRefs? || pc.CheckIdle? || pc.StampIdle? || pc.DeleteIdle?
  }

  predicate CheckPc(pc: Pc) {
    pc.Inspect? || pc.Compare? || pc.Prune? || pc.Idle? || pc.Postpone? || pc.Recount? || pc.Delete?
  }

  predicate LockedHandlerPc(pc: Pc) { pc.PollGone? || pc.Recreate? || pc.MergeBack? }

  predicate UnlockedHandlerPc(pc: Pc) { pc.Fetch? || pc.Unfinalize? || pc.WaitLockAgain? }

  /** The actor is between Lock and Unlock. */
  predicate Critical(pc: Pc) {
    PublishPc(pc) || UnpublishPc(pc) || CheckPc(pc) || LockedHandlerPc(pc) || pc.Release? || pc.ReleaseToHandle?
  }

  /** The actor is blocked until its stripe is free. */
  predicate Waiting(pc: Pc) { pc.WaitLock? || pc.WaitLockAgain? }

  /** The actor's next action is a call of its own. */
  predicate Calling(pc: Pc) {
    PublishPc(pc) || UnpublishPc(pc) || CheckPc(pc) || LockedHandlerPc(pc) || pc.Fetch? || pc.Unfinalize?
  }

  // ---------- actions ----------

  datatype Action =
    | Spawn(id: ActorId, actor: Actor)
    | Lock(id: ActorId)
    | Call(id: ActorId, choice: Choice)
    | Unlock(id: ActorId)
    | ExternalDelete(name: Name)                          // kubectl delete, eviction, drain
    | Vanish(name: Name)                                  // the server drops a terminating pod without finalizer
    | Annotate(name: Name, key: string, value: Value)     // setUUIDAnnotation and the like

  /** A version of pod `n` that the server may have handed out at some earlier time. */
  ghost predicate PastVersion(w: World, n: Name, p: Pod) {
    && p.uid < w.nextUid
    && WellFormed(p.annotations)
    && (n in w.pods && w.pods[n].uid == p.uid && p.terminating ==> w.pods[n].terminating)
  }

  /** New pods carry no reference and no stamp besides the publisher's own; a pod is reconciled by one run at a time. */
  ghost predicate MaySpawn(w: World, a: Actor) {
    && a.pc == WaitLock
    && (a.job.Publish? ==> Refs(a.job.base) == {} && WellFormed(a.job.base) && DeleteAtKey !in a.job.base)
    && (a.job.Reconcile? ==>
        && PastVersion(w, a.name, a.job.current)
        && forall j :: j in w.actors && w.actors[j].job.Reconcile? && w.actors[j].name == a.name ==>
             w.actors[j].pc.Done?)
  }

  ghost predicate Enabled(w: World, act: Action) {
    match act
    case Spawn(i, a) => i !in w.actors && MaySpawn(w, a)
    case Lock(i) => i in w.actors && Waiting(w.actors[i].pc) && PodLocks.Stripe(w.actors[i].name) !in w.locks
    case Call(i, _) => i in w.actors && Calling(w.actors[i].pc)
    case Unlock(i) => i in w.actors && (w.actors[i].pc.Release? || w.actors[i].pc.ReleaseToHandle?)
    case ExternalDelete(n) => n in w.pods
    case Vanish(n) => n in w.pods && w.pods[n].terminating && !w.pods[n].finalizer
    case Annotate(n, _, _) => n in w.pods
  }

  function SetPc(w: World, i: ActorId, pc: Pc): (r: World)
    requires i in w.actors
  {
    w.(actors := w.actors[i := w.actors[i].(pc := pc)])
  }

  /** `p` replaces what the server stores under `n`; storing a pod where there was none uses up a uid. */
  function PutPod(w: World, n: Name, p: Pod): (r: World) {
    w.(pods := w.pods[n := p], nextUid := if n in w.pods then w.nextUid else w.nextUid + 1)
  }

  function Store(w: World, n: Name, p: Option<Pod>): (r: World) {
    if p.Some? then PutPod(w, n, p.value) else w
  }

  function AfterLock(a: Actor): (r: Pc) {
    if a.pc.WaitLockAgain? then PollGone(a.pc.fetched) else FirstPc(a.job)
  }

  /** After `checkAnnotations` a run goes on only when its snapshot was deleted or in error. */
  function AfterUnlock(a: Actor): (r: Pc) {
    if a.pc.ReleaseToHandle? && a.job.Reconcile? && (a.job.current.terminating || a.job.errored) then Fetch else Done
  }

  function Apply(w: World, act: Action): (r: World)
    requires Enabled(w, act)
  {
    match act
    case Spawn(i, a) => w.(actors := w.actors[i := a])
    case Lock(i) =>
      SetPc(w.(locks := w.locks[PodLocks.Stripe(w.actors[i].name) := i]), i, AfterLock(w.actors[i]))
    case Call(i, c) =>
      var a := w.actors[i];
      var r := ActorStep(At(w.pods, a.name), w.nextUid, a, c);
      SetPc(Store(w, a.name, r.0), i, r.1)
    case Unlock(i) =>
      SetPc(w.(locks := w.locks - {PodLocks.Stripe(w.actors[i].name)}), i, AfterUnlock(w.actors[i]))
    case ExternalDelete(n) => w.(pods := w.pods[n := w.pods[n].(terminating := true)])
    case Vanish(n) =>
      w.(pods := w.pods - {n}, vanished := w.vanished[(n, w.pods[n].uid) := Refs(w.pods[n].annotations)])
    case Annotate(n, k, v) =>
      w.(pods := w.pods[n := w.pods[n].(annotations := w.pods[n].annotations[OtherKey(k) := v])])
  }

  /** A node that starts up: well-formed mount pods, nobody running. */
  ghost predicate Initial(w: World) {
    && w.locks == map[] && w.actors == map[] && w.vanished == map[]
    && forall n :: n in w.pods ==>
        w.pods[n].uid < w.nextUid && WellFormed(w.pods[n].annotations) && (w.pods[n].finalizer || w.pods[n].terminating)
  }

  /** `run` leads from `w` to `w'`. */
  ghost predicate Leads(w: World, run: seq<Action>, w': World)
    decreases |run|
  {
    if run == [] then w == w'
    else Enabled(w, run[0]) && Leads(Apply(w, run[0]), run[1..], w')
  }

  ghost predicate Reachable(w: World) {
    exists w0, run :: Initial(w0) && Leads(w0, run, w)
  }

  /** No call of the actor fails. */
  predicate Patient(run: seq<Action>, i: ActorId) {
    forall k :: 0 <= k < |run| && run[k].Call? && run[k].id == i ==> run[k].choice.ok
  }
}
