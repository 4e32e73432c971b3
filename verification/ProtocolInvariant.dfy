/** The inductive invariant of the reference protocol: what each program counter may rely on while others run. */
module ProtocolInvariant {
  import opened MountPod
  import opened Wrappers
  import opened Protocol
  import PodLocks

  // ---------- statements ----------

  /** A program counter belongs to the job of its actor. */
  predicate Fits(a: Actor) {
    match a.job
    case Publish(_, _) => PublishPc(a.pc) || a.pc.WaitLock? || a.pc.Release? || a.pc.Done?
    case Unpublish(_) => UnpublishPc(a.pc) || a.pc.WaitLock? || a.pc.Release? || a.pc.Done?
    case Reconcile(current, _, errored) =>
      !PublishPc(a.pc) && !UnpublishPc(a.pc) && (Handling(a.pc) ==> current.terminating || errored)
  }

  predicate Handling(pc: Pc) { UnlockedHandlerPc(pc) || LockedHandlerPc(pc) }

  /** The snapshot shows a live pod without live references and without a delay, so that its check gets to the
      handler only by deleting the pod. */
  predicate MustDelete(job: Job) {
    && job.Reconcile? && !job.current.terminating
    && LiveRefs(job.current.annotations, job.live) == {} && NeverDelays(job.current.annotations)
  }

  /** The snapshot has references, and all of them are dead. */
  predicate AllDead(job: Job) {
    && job.Reconcile? && LiveRefs(job.current.annotations, job.live) == {}
    && Refs(job.current.annotations) != {}
  }

  /** The snapshot shows a live pod without live references, with a delay and not yet stamped. */
  predicate AsksForStamp(job: Job) {
    && job.Reconcile? && !job.current.terminating
    && LiveRefs(job.current.annotations, job.live) == {} && StampsFirst(job.current.annotations)
  }

  /** The run's pod was deleted before the run, or the run's own check must delete it. */
  predicate DeletesFirst(job: Job) {
    job.Reconcile? && (job.current.terminating || MustDelete(job))
  }

  /** From here on the incarnation of the snapshot is terminating. */
  predicate Doomed(a: Actor) {
    a.job.Reconcile? && (a.job.current.terminating || (MustDelete(a.job) && (a.pc.ReleaseToHandle? || Handling(a.pc))))
  }

  /** Run was given the very incarnation it later fetched, and that one was deleted before its handler fetched it,
      under the lock or before the run. */
  predicate EnteredDeleted(job: Job, fetched: Pod) {
    DeletesFirst(job) && job.current.uid == fetched.uid
  }

  /** What a handler knows of the pod it fetched: it still is terminating or it is gone,
      and when it was entered deleted, the fetched references cover all it ever had since. */
  ghost predicate FetchedInv(p: Option<Pod>, w: World, a: Actor, fetched: Pod) {
    && fetched.uid < w.nextUid && WellFormed(fetched.annotations) && fetched.terminating
    && ((p.Some? && p.value.uid == fetched.uid) || (a.name, fetched.uid) in w.vanished)
    && (p.Some? && p.value.uid == fetched.uid ==> p.value.terminating)
    && (EnteredDeleted(a.job, fetched) ==>
        && (p.Some? && p.value.uid == fetched.uid ==> Refs(p.value.annotations) <= Refs(fetched.annotations))
        && ((a.name, fetched.uid) in w.vanished ==> w.vanished[(a.name, fetched.uid)] <= Refs(fetched.annotations)))
  }

  /** A pod seen under the lock: the server still has this incarnation with these references, or none. */
  ghost predicate SeenInv(p: Option<Pod>, w: World, seen: Pod) {
    && seen.uid < w.nextUid && WellFormed(seen.annotations) && !seen.terminating
    && (p.Some? ==> p.value.uid == seen.uid && Refs(p.value.annotations) == Refs(seen.annotations))
  }

  ghost predicate PcInv(p: Option<Pod>, w: World, a: Actor) {
    match a.pc
    case Create => p.None?
    case AddPatch(seen) => SeenInv(p, w, seen) && a.job.Publish? && a.job.target !in Refs(seen.annotations)
    case RemoveKey => p.Some? ==> a.job.Unpublish? && RefKey(a.job.target) in p.value.annotations
    case CheckIdle => RefsOf(p) == {}
    case StampIdle(_) => RefsOf(p) == {}
    case DeleteIdle => RefsOf(p) == {}
    case Prune => p.Some? && a.job.Reconcile? ==> |Refs(p.value.annotations)| == |Refs(a.job.current.annotations)|
    case Idle => AllDead(a.job) ==> RefsOf(p) == {}
    case Postpone(_) => AsksForStamp(a.job) && (AllDead(a.job) ==> RefsOf(p) == {})
    case Delete => RefsOf(p) == {}
    case Unfinalize(f) => FetchedInv(p, w, a, f) && p.Some? && p.value.uid == f.uid && p.value.finalizer
    case WaitLockAgain(f) => FetchedInv(p, w, a, f)
    case PollGone(f) => FetchedInv(p, w, a, f)
    case Recreate(f) => FetchedInv(p, w, a, f) && p.None?
    case MergeBack(f, found) => FetchedInv(p, w, a, f) && SeenInv(p, w, found) && found.uid != f.uid
    case _ => true
  }

  ghost predicate SnapshotInv(p: Option<Pod>, w: World, a: Actor) {
    a.job.Reconcile? ==>
      && a.job.current.uid < w.nextUid
      && WellFormed(a.job.current.annotations)
      && (p.Some? && p.value.uid == a.job.current.uid && Doomed(a) ==> p.value.terminating)
  }

  ghost predicate BaseInv(a: Actor) {
    a.job.Publish? ==> Refs(a.job.base) == {} && WellFormed(a.job.base) && DeleteAtKey !in a.job.base
  }

  ghost predicate ActorInv(w: World, a: Actor) {
    Fits(a) && BaseInv(a) && SnapshotInv(At(w.pods, a.name), w, a) && PcInv(At(w.pods, a.name), w, a)
  }

  ghost predicate PodInv(p: Option<Pod>, uid: nat) {
    p.Some? ==> p.value.uid < uid && WellFormed(p.value.annotations) && (p.value.finalizer || p.value.terminating)
  }

  ghost predicate PodsInv(w: World) {
    && (forall n :: n in w.pods ==> PodInv(Some(w.pods[n]), w.nextUid))
    && (forall n, u :: (n, u) in w.vanished ==> u < w.nextUid && (n in w.pods ==> w.pods[n].uid != u))
  }

  /** Actor `i` owns the stripe of its pod. */
  predicate Owns(locks: map<nat, ActorId>, i: ActorId, a: Actor) {
    PodLocks.Stripe(a.name) in locks && locks[PodLocks.Stripe(a.name)] == i
  }

  predicate OwnedStripe(locks: map<nat, ActorId>, actors: map<ActorId, Actor>, s: nat)
    requires s in locks
  {
    locks[s] in actors && Critical(actors[locks[s]].pc) && PodLocks.Stripe(actors[locks[s]].name) == s
  }

  /** The lock table says exactly who is critical on which stripe. */
  ghost predicate LockTable(locks: map<nat, ActorId>, actors: map<ActorId, Actor>) {
    && (forall i :: i in actors && Critical(actors[i].pc) ==> Owns(locks, i, actors[i]))
    && (forall s :: s in locks ==> OwnedStripe(locks, actors, s))
  }

  ghost predicate LockInv(w: World) {
    LockTable(w.locks, w.actors)
  }

  predicate OneRun(a: Actor, b: Actor) {
    a.job.Reconcile? && b.job.Reconcile? && a.name == b.name ==> a.pc.Done? || b.pc.Done?
  }

  /** No publisher is about to add to an incarnation that a handler's run knows to be deleted. */
  predicate NoLateAdd(a: Actor, b: Actor) {
    a.pc.AddPatch? && Handling(b.pc) && a.name == b.name && Doomed(b) ==>
      a.pc.seen.uid != b.job.current.uid
  }

  /** One unfinished run per pod, and no late addition, for every two actors. */
  ghost predicate PairsInv(actors: map<ActorId, Actor>) {
    && (forall i, j :: i in actors && j in actors && i != j ==> OneRun(actors[i], actors[j]))
    && (forall i, j :: i in actors && j in actors ==> NoLateAdd(actors[i], actors[j]))
  }

  /** What an actor with a changed program counter must show for `PairsInv`. */
  ghost predicate FitsIn(actors: map<ActorId, Actor>, i: ActorId, a: Actor) {
    forall j :: j in actors && j != i ==> OneRun(a, actors[j]) && NoLateAdd(a, actors[j]) && NoLateAdd(actors[j], a)
  }

  lemma PairsMove(actors: map<ActorId, Actor>, i: ActorId, a: Actor)
    requires PairsInv(actors) && NoLateAdd(a, a) && FitsIn(actors, i, a)
    ensures PairsInv(actors[i := a])
  {
  }

  ghost predicate Inv(w: World) {
    && PodsInv(w) && LockInv(w) && PairsInv(w.actors)
    && forall i :: i in w.actors ==> ActorInv(w, w.actors[i])
  }

  // ---------- the lock table ----------

  lemma TableMove(locks: map<nat, ActorId>, actors: map<ActorId, Actor>, i: ActorId, pc: Pc)
    requires LockTable(locks, actors) && i in actors && (Critical(pc) <==> Critical(actors[i].pc))
    ensures LockTable(locks, actors[i := actors[i].(pc := pc)])
  {
    var actors' := actors[i := actors[i].(pc := pc)];
    forall s | s in locks ensures OwnedStripe(locks, actors', s) {
      assert OwnedStripe(locks, actors, s);
    }
  }

  lemma TableSpawn(locks: map<nat, ActorId>, actors: map<ActorId, Actor>, i: ActorId, a: Actor)
    requires LockTable(locks, actors) && i !in actors && !Critical(a.pc)
    ensures LockTable(locks, actors[i := a])
  {
    forall s | s in locks ensures OwnedStripe(locks, actors[i := a], s) {
      assert OwnedStripe(locks, actors, s);
    }
  }

  lemma TableLock(locks: map<nat, ActorId>, actors: map<ActorId, Actor>, i: ActorId, pc: Pc)
    requires LockTable(locks, actors) && i in actors && !Critical(actors[i].pc) && Critical(pc)
    requires PodLocks.Stripe(actors[i].name) !in locks
    ensures LockTable(locks[PodLocks.Stripe(actors[i].name) := i], actors[i := actors[i].(pc := pc)])
  {
    var locks' := locks[PodLocks.Stripe(actors[i].name) := i];
    var actors' := actors[i := actors[i].(pc := pc)];
    forall s | s in locks' ensures OwnedStripe(locks', actors', s) {
      assert s in locks ==> OwnedStripe(locks, actors, s);
    }
    forall j | j in actors' && Critical(actors'[j].pc) ensures Owns(locks', j, actors'[j]) {
      assert j != i ==> Owns(locks, j, actors[j]);
    }
  }

  lemma TableUnlock(locks: map<nat, ActorId>, actors: map<ActorId, Actor>, i: ActorId, pc: Pc)
    requires LockTable(locks, actors) && i in actors && Critical(actors[i].pc) && !Critical(pc)
    ensures LockTable(locks - {PodLocks.Stripe(actors[i].name)}, actors[i := actors[i].(pc := pc)])
  {
    var locks' := locks - {PodLocks.Stripe(actors[i].name)};
    var actors' := actors[i := actors[i].(pc := pc)];
    assert Owns(locks, i, actors[i]);
    forall s | s in locks' ensures OwnedStripe(locks', actors', s) {
      assert OwnedStripe(locks, actors, s);
    }
    forall j | j in actors' && Critical(actors'[j].pc) ensures Owns(locks', j, actors'[j]) {
      assert Owns(locks, j, actors[j]);
    }
  }

  // ---------- one call: the actor's own knowledge ----------

  /** How a call may change the stored pod: it keeps the incarnation or creates the next one,
      and never revives a terminating pod. */
  predicate Shape(p: Option<Pod>, uid: nat, p': Option<Pod>) {
    && (p.Some? ==> p'.Some? && p'.value.uid == p.value.uid && (p.value.terminating ==> p'.value.terminating))
    && (p.None? && p'.Some? ==> p'.value.uid == uid && !p'.value.terminating && p'.value.finalizer)
  }

  lemma PublishShape(p: Option<Pod>, uid: nat, t: Target, base: Annotations, pc: Pc, c: Choice)
    ensures Shape(p, uid, PublishStep(p, uid, t, base, pc, c).0)
  {
  }

  lemma UnpublishShape(p: Option<Pod>, uid: nat, t: Target, pc: Pc, c: Choice)
    ensures Shape(p, uid, UnpublishStep(p, t, pc, c).0)
  {
  }

  lemma CheckShape(p: Option<Pod>, uid: nat, job: Job, pc: Pc, c: Choice)
    requires job.Reconcile?
    ensures Shape(p, uid, CheckStep(p, job, pc, c).0)
  {
  }

  lemma HandlerShape(p: Option<Pod>, uid: nat, pc: Pc, c: Choice)
    ensures Shape(p, uid, HandlerStep(p, uid, pc, c).0)
  {
  }

  lemma ReconcileShape(p: Option<Pod>, uid: nat, job: Job, pc: Pc, c: Choice)
    requires job.Reconcile?
    ensures Shape(p, uid, ReconcileStep(p, uid, job, pc, c).0)
  {
    CheckShape(p, uid, job, pc, c);
    HandlerShape(p, uid, pc, c);
  }

  lemma PublishKeeps(w: World, a: Actor, c: Choice)
    requires PodsInv(w) && ActorInv(w, a) && a.job.Publish? && Calling(a.pc)
    ensures var p := At(w.pods, a.name);
      var r := ActorStep(p, w.nextUid, a, c);
      var w' := Store(w, a.name, r.0);
      PodInv(r.0, w'.nextUid) && ActorInv(w', a.(pc := r.1))
  {
    if a.pc.Create? {
      var made := a.job.base[RefKey(a.job.target) := Text(a.job.target)];
      assert WellFormed(made);
    }
  }

  lemma RemoveOne(a: Annotations, k: Key)
    ensures PatchRemove(a, [k]) == if k in a then Some(a - {k}) else None
  {
  }

  lemma UnpublishReads(w: World, a: Actor, c: Choice)
    requires PodsInv(w) && ActorInv(w, a) && a.job.Unpublish?
    requires a.pc.FindPod? || a.pc.FindKey? || a.pc.CountRefs? || a.pc.CheckIdle?
    ensures var r := UnpublishStep(At(w.pods, a.name), a.job.target, a.pc, c);
      r.0 == At(w.pods, a.name) && ActorInv(w, a.(pc := r.1))
  {
  }

  lemma UnpublishWrites(w: World, a: Actor, c: Choice)
    requires PodsInv(w) && ActorInv(w, a) && a.job.Unpublish?
    requires a.pc.RemoveKey? || a.pc.StampIdle? || a.pc.DeleteIdle?
    ensures var r := UnpublishStep(At(w.pods, a.name), a.job.target, a.pc, c);
      var w' := Store(w, a.name, r.0);
      PodInv(r.0, w'.nextUid) && ActorInv(w', a.(pc := r.1))
  {
    if a.pc.RemoveKey? && a.name in w.pods {
      RemoveOne(w.pods[a.name].annotations, RefKey(a.job.target));
    }
  }

  lemma UnpublishKeeps(w: World, a: Actor, c: Choice)
    requires PodsInv(w) && ActorInv(w, a) && a.job.Unpublish? && UnpublishPc(a.pc)
    ensures var r := UnpublishStep(At(w.pods, a.name), a.job.target, a.pc, c);
      var w' := Store(w, a.name, r.0);
      PodInv(r.0, w'.nextUid) && ActorInv(w', a.(pc := r.1))
  {
    if a.pc.RemoveKey? || a.pc.StampIdle? || a.pc.DeleteIdle? {
      UnpublishWrites(w, a, c);
    } else {
      UnpublishReads(w, a, c);
      assert Store(w, a.name, At(w.pods, a.name)) == w;
    }
  }

  /** The calls of `checkAnnotations` that write nothing. */
  lemma CheckReads(w: World, a: Actor, c: Choice)
    requires ActorInv(w, a) && a.job.Reconcile?
    requires a.pc.Inspect? || a.pc.Compare? || a.pc.Idle? || a.pc.Recount?
    ensures var r := CheckStep(At(w.pods, a.name), a.job, a.pc, c);
      r.0 == At(w.pods, a.name) && ActorInv(w, a.(pc := r.1))
  {
    if a.pc.Inspect? {
      if AllDead(a.job) {
        NoLiveRefs(a.job.current.annotations, a.job.live);
      }
    } else if a.pc.Compare? {
    } else if a.pc.Idle? {
    } else {
    }
  }

  lemma PruneKeeps(w: World, a: Actor, c: Choice)
    requires PodsInv(w) && ActorInv(w, a) && a.job.Reconcile? && a.pc.Prune?
    ensures var r := CheckStep(At(w.pods, a.name), a.job, a.pc, c);
      var w' := Store(w, a.name, r.0);
      PodInv(r.0, w'.nextUid) && ActorInv(w', a.(pc := r.1))
  {
    if a.name in w.pods && PruneKeys(a.job.current.annotations, a.job.live) <= w.pods[a.name].annotations.Keys {
      PrunedPod(w.pods[a.name].annotations, a.job);
    } else {
    }
  }

  lemma PrunedPod(a: Annotations, job: Job)
    requires job.Reconcile? && WellFormed(a) && |Refs(a)| == |Refs(job.current.annotations)|
    requires PruneKeys(job.current.annotations, job.live) <= a.Keys
    ensures WellFormed(a - PruneKeys(job.current.annotations, job.live))
    ensures AllDead(job) ==> Refs(a - PruneKeys(job.current.annotations, job.live)) == {}
  {
    RefsAfterRemove(a, PruneKeys(job.current.annotations, job.live));
    if AllDead(job) {
      PruneAll(a, job.current.annotations, job.live);
    }
  }

  lemma PostponeKeeps(w: World, a: Actor, c: Choice)
    requires PodsInv(w) && ActorInv(w, a) && a.job.Reconcile? && a.pc.Postpone?
    ensures var r := CheckStep(At(w.pods, a.name), a.job, a.pc, c);
      var w' := Store(w, a.name, r.0);
      PodInv(r.0, w'.nextUid) && ActorInv(w', a.(pc := r.1))
  {
  }

  lemma DeleteKeeps(w: World, a: Actor, c: Choice)
    requires PodsInv(w) && ActorInv(w, a) && a.job.Reconcile? && a.pc.Delete?
    ensures var r := CheckStep(At(w.pods, a.name), a.job, a.pc, c);
      var w' := Store(w, a.name, r.0);
      PodInv(r.0, w'.nextUid) && ActorInv(w', a.(pc := r.1))
  {
  }

  /** `podDeletedHandler` before it takes the lock. */
  lemma FetchKeeps(w: World, a: Actor, c: Choice)
    requires PodsInv(w) && ActorInv(w, a) && a.job.Reconcile? && a.pc.Fetch?
    ensures var r := HandlerStep(At(w.pods, a.name), w.nextUid, a.pc, c);
      r.0 == At(w.pods, a.name) && ActorInv(w, a.(pc := r.1))
  {
  }

  lemma UnfinalizeKeeps(w: World, a: Actor, c: Choice)
    requires PodsInv(w) && ActorInv(w, a) && a.job.Reconcile? && a.pc.Unfinalize?
    ensures var r := HandlerStep(At(w.pods, a.name), w.nextUid, a.pc, c);
      var w' := Store(w, a.name, r.0);
      PodInv(r.0, w'.nextUid) && ActorInv(w', a.(pc := r.1))
  {
  }

  /** `podDeletedHandler` under the lock. */
  lemma RecreateKeeps(w: World, a: Actor, c: Choice)
    requires PodsInv(w) && ActorInv(w, a) && a.job.Reconcile? && a.pc.Recreate?
    ensures var r := HandlerStep(At(w.pods, a.name), w.nextUid, a.pc, c);
      var w' := Store(w, a.name, r.0);
      PodInv(r.0, w'.nextUid) && ActorInv(w', a.(pc := r.1))
  {
  }

  lemma PollGoneKeeps(w: World, a: Actor, c: Choice)
    requires PodsInv(w) && ActorInv(w, a) && a.job.Reconcile? && a.pc.PollGone?
    ensures var r := HandlerStep(At(w.pods, a.name), w.nextUid, a.pc, c);
      r.0 == At(w.pods, a.name) && ActorInv(w, a.(pc := r.1))
  {
  }

  lemma MergeKeeps(w: World, a: Actor, c: Choice)
    requires PodsInv(w) && ActorInv(w, a) && a.job.Reconcile? && a.pc.MergeBack?
    ensures var r := HandlerStep(At(w.pods, a.name), w.nextUid, a.pc, c);
      var w' := Store(w, a.name, r.0);
      PodInv(r.0, w'.nextUid) && ActorInv(w', a.(pc := r.1))
  {
  }

  // ---------- one call: the knowledge of the others ----------

  /** `b` shares no critical section, no run and no late addition with the caller `a`. */
  ghost predicate Apart(a: Actor, b: Actor) {
    && (Critical(a.pc) && Critical(b.pc) ==> a.name != b.name)
    && OneRun(a, b) && NoLateAdd(a, b)
  }

  lemma OthersKeepElsewhere(w: World, n: Name, p: Option<Pod>, b: Actor)
    requires ActorInv(w, b) && b.name != n
    ensures ActorInv(Store(w, n, p), b)
  {
    assert At(Store(w, n, p).pods, b.name) == At(w.pods, b.name);
  }

  /** Locked callers meet only actors outside the lock. */
  lemma OthersKeepPublish(w: World, a: Actor, c: Choice, b: Actor)
    requires PodsInv(w) && ActorInv(w, a) && ActorInv(w, b) && Apart(a, b) && a.name == b.name
    requires a.job.Publish? && PublishPc(a.pc)
    ensures ActorInv(Store(w, a.name, ActorStep(At(w.pods, a.name), w.nextUid, a, c).0), b)
  {
    PublishShape(At(w.pods, a.name), w.nextUid, a.job.target, a.job.base, a.pc, c);
  }

  lemma OthersKeepUnpublish(w: World, a: Actor, c: Choice, b: Actor)
    requires PodsInv(w) && ActorInv(w, a) && ActorInv(w, b) && Apart(a, b) && a.name == b.name
    requires a.job.Unpublish? && UnpublishPc(a.pc)
    ensures ActorInv(Store(w, a.name, ActorStep(At(w.pods, a.name), w.nextUid, a, c).0), b)
  {
    UnpublishShape(At(w.pods, a.name), w.nextUid, a.job.target, a.pc, c);
    if a.pc.RemoveKey? && a.name in w.pods {
      RemoveOne(w.pods[a.name].annotations, RefKey(a.job.target));
    }
  }

  lemma OthersKeepReconcile(w: World, a: Actor, c: Choice, b: Actor)
    requires PodsInv(w) && ActorInv(w, a) && ActorInv(w, b) && Apart(a, b) && a.name == b.name
    requires a.job.Reconcile? && Calling(a.pc)
    ensures ActorInv(Store(w, a.name, ActorStep(At(w.pods, a.name), w.nextUid, a, c).0), b)
  {
    ReconcileShape(At(w.pods, a.name), w.nextUid, a.job, a.pc, c);
  }

  lemma OthersKeep(w: World, a: Actor, c: Choice, b: Actor)
    requires PodsInv(w) && ActorInv(w, a) && ActorInv(w, b) && Apart(a, b) && Calling(a.pc)
    ensures ActorInv(Store(w, a.name, ActorStep(At(w.pods, a.name), w.nextUid, a, c).0), b)
  {
    if a.name != b.name {
      OthersKeepElsewhere(w, a.name, ActorStep(At(w.pods, a.name), w.nextUid, a, c).0, b);
    } else {
      match a.job
      case Publish(_, _) => OthersKeepPublish(w, a, c, b);
      case Unpublish(_) => OthersKeepUnpublish(w, a, c, b);
      case Reconcile(_, _, _) => OthersKeepReconcile(w, a, c, b);
    }
  }

  lemma OwnKeeps(w: World, a: Actor, c: Choice)
    requires PodsInv(w) && ActorInv(w, a) && Calling(a.pc)
    ensures var p := At(w.pods, a.name);
      var r := ActorStep(p, w.nextUid, a, c);
      var w' := Store(w, a.name, r.0);
      PodInv(r.0, w'.nextUid) && ActorInv(w', a.(pc := r.1))
  {
    match a.job
    case Publish(_, _) => PublishKeeps(w, a, c);
    case Unpublish(_) => UnpublishKeeps(w, a, c);
    case Reconcile(_, _, _) => 
      if a.pc.Recreate? {
        RecreateKeeps(w, a, c);
      } else if a.pc.MergeBack? {
        MergeKeeps(w, a, c);
      } else if a.pc.PollGone? {
        PollGoneKeeps(w, a, c);
        assert Store(w, a.name, At(w.pods, a.name)) == w;
      } else if a.pc.Unfinalize? {
        UnfinalizeKeeps(w, a, c);
      } else if a.pc.Fetch? {
        FetchKeeps(w, a, c);
        assert Store(w, a.name, At(w.pods, a.name)) == w;
      } else if a.pc.Prune? {
        PruneKeeps(w, a, c);
      } else if a.pc.Postpone? {
        PostponeKeeps(w, a, c);
      } else if a.pc.Delete? {
        DeleteKeeps(w, a, c);
      } else {
        CheckReads(w, a, c);
        assert Store(w, a.name, At(w.pods, a.name)) == w;
      }
  }
}
