/** Exactly which runs of the reconciler can stamp a pod for deletion although it has references. */
module ProtocolStamps {
  import opened MountPod
  import opened Wrappers
  import opened Protocol
  import opened ProtocolInvariant
  import opened ProtocolSafety
  import opened ProtocolStages
  import opened ProtocolLosses

  /** A run with this job gives the delete-at stamp to a pod that has references. */
  ghost predicate StampsReferenced(w: World, i: ActorId, c: Choice, n: Name, job: Job) {
    && Reachable(w) && Enabled(w, Call(i, c)) && c.ok && w.actors[i].pc.Postpone?
    && w.actors[i].name == n && w.actors[i].job == job
    && n in w.pods && Refs(w.pods[n].annotations) != {}
  }

  /** The stamp and the references are then stored side by side. */
  lemma StampBesideReferences(w: World, i: ActorId, c: Choice, n: Name, job: Job)
    requires StampsReferenced(w, i, c, n, job)
    ensures var w' := Apply(w, Call(i, c));
      && n in w'.pods && DeleteAtKey in w'.pods[n].annotations
      && Refs(w'.pods[n].annotations) == Refs(w.pods[n].annotations)
  {
    ReachableActor(w, i);
  }

  /** The snapshot shows a live pod without references that asks for its stamp. */
  predicate ShowsIdle(job: Job) {
    && job.Reconcile? && !job.current.terminating
    && Refs(job.current.annotations) == {} && StampsFirst(job.current.annotations)
  }

  function LatePod(k: Cast): (p: Pod)
    requires k.job.Reconcile?
  {
    Pod(k.job.current.uid, false, true, WithRef(Snapshot(k), k.first))
  }

  function BeforeStamp(k: Cast): (s: Stage)
    requires k.job.Reconcile? && ShouldDelay(Snapshot(k), 0).AddStamp?
  {
    var sec := ShouldDelay(Snapshot(k), 0).sec;
    Stage(Some(LatePod(k)), k.job.current.uid + 1, Some(0), Postpone(sec), Some(Done), None, map[])
  }

  lemma AddedBeforeRun(k: Cast) returns (s: Stage)
    requires k.job.Reconcile? && !k.job.current.terminating
    requires WellFormed(Snapshot(k)) && RefKey(k.first) !in Snapshot(k)
    ensures Reached(k, s)
    ensures s == Stage(Some(LatePod(k)), k.job.current.uid + 1, None, WaitLock, Some(Done), None, map[])
  {
    var p := Pod(k.job.current.uid, false, true, Snapshot(k));
    Starts(k, p, p.uid + 1);
    FirstAdds(k, Stage(Some(p), p.uid + 1, None, WaitLock, None, None, map[]));
    s := Stage(Some(LatePod(k)), p.uid + 1, None, WaitLock, Some(Done), None, map[]);
  }

  lemma LocksAndChecks(k: Cast, s: Stage)
    requires Reached(k, s) && ShowsIdle(k.job) && s.run == WaitLock && s.holder.None? && s.pod.Some?
    ensures Reached(k, s.(holder := Some(0), run := Postpone(ShouldDelay(k.job.current.annotations, 0).sec)))
  {
    Locks(k, s, 0);
    NothingToCheck(k, s.(holder := Some(0), run := Inspect));
  }

  lemma ReachesStamp(k: Cast)
    requires ShowsIdle(k.job) && WellFormed(Snapshot(k)) && RefKey(k.first) !in Snapshot(k)
    ensures Reached(k, BeforeStamp(k))
  {
    var s := AddedBeforeRun(k);
    LocksAndChecks(k, s);
  }

  /** The pod is given to the run while idle; a publisher adds to it before the run locks; the run compares nothing. */
  lemma RunStampsLatePod(k: Cast) returns (w: World)
    requires ShowsIdle(k.job) && WellFormed(Snapshot(k)) && RefKey(k.first) !in Snapshot(k)
    ensures StampsReferenced(w, 0, OK, k.name, k.job)
    ensures 1 in w.actors && w.actors[1] == Actor(k.name, Publish(k.first, BaseOf(k)), Done)
  {
    ReachesStamp(k);
    Arrives(k, BeforeStamp(k));
    w := WorldAt(k, BeforeStamp(k));
    assert w.actors[0] == Person(k, BeforeStamp(k), 0) && w.actors[1] == Person(k, BeforeStamp(k), 1);
    assert k.first in Refs(LatePod(k).annotations);
  }

  lemma NothingToCheck(k: Cast, s: Stage)
    requires Reached(k, s) && ShowsIdle(k.job) && s.run == Inspect && s.pod.Some?
    ensures Reached(k, s.(run := Postpone(ShouldDelay(k.job.current.annotations, 0).sec)))
  {
    NoLiveRefs(k.job.current.annotations, k.job.live);
    CheckCalls(k, s, OK, s.pod, Idle);
    CheckCalls(k, s.(run := Idle), OK, s.pod, Postpone(ShouldDelay(k.job.current.annotations, 0).sec));
  }

  /** A run that is about to stamp a pod with references saw it without any. */
  lemma StamperShowsIdle(w: World, i: ActorId)
    requires Reachable(w) && i in w.actors && w.actors[i].pc.Postpone? && w.actors[i].name in w.pods
    requires w.actors[i].job.Reconcile? && Refs(w.pods[w.actors[i].name].annotations) != {}
    ensures WellFormed(w.actors[i].job.current.annotations) && ShowsIdle(w.actors[i].job)
  {
    ReachableActor(w, i);
  }

  /** For every job: a run can stamp a pod that has references exactly when its snapshot shows the pod alive, without
      any reference, with a delay and without a stamp; with dead references in it, the counts are compared. */
  lemma StampsReferencedIff(n: Name, job: Job)
    requires job.Reconcile?
    ensures (exists w, i, c :: StampsReferenced(w, i, c, n, job)) <==>
      WellFormed(job.current.annotations) && ShowsIdle(job)
  {
    forall w, i, c | StampsReferenced(w, i, c, n, job) ensures WellFormed(job.current.annotations) && ShowsIdle(job) {
      StamperShowsIdle(w, i);
    }
    if WellFormed(job.current.annotations) && ShowsIdle(job) {
      var t, u := FreeTargets(job.current.annotations);
      var w := RunStampsLatePod(Cast(n, job, t, u, None, false));
    }
  }

  // ---------- every way to a stamp beside references ----------

  predicate Beside(p: Option<Pod>) {
    p.Some? && Refs(p.value.annotations) != {} && DeleteAtKey in p.value.annotations
  }

  /** The calls that put a stamp and references side by side: the check stamps a pod with references, the handler
      creates the pod from a fetched one that has both, or it merges references into a stamped pod. */
  predicate MakesBeside(p: Option<Pod>, a: Actor, c: Choice) {
    c.ok && !Beside(p) && a.job.Reconcile? &&
    match a.pc
    case Postpone(_) => RefsOf(p) != {}
    case Recreate(f) => p.None? && Beside(Some(f))
    case MergeBack(f, found) =>
      p.Some? && DeleteAtKey in found.annotations && (RefsOf(p) != {} || Refs(f.annotations) != {})
    case _ => false
  }

  lemma PublishNotBeside(w: World, a: Actor, c: Choice)
    requires ActorInv(w, a) && a.job.Publish?
    ensures Beside(PublishStep(At(w.pods, a.name), w.nextUid, a.job.target, a.job.base, a.pc, c).0) ==>
      Beside(At(w.pods, a.name))
  {
  }

  lemma UnpublishNotBeside(w: World, a: Actor, c: Choice)
    requires ActorInv(w, a) && a.job.Unpublish?
    ensures Beside(UnpublishStep(At(w.pods, a.name), a.job.target, a.pc, c).0) ==> Beside(At(w.pods, a.name))
  {
    if a.pc.RemoveKey? && a.name in w.pods {
      RemoveOne(w.pods[a.name].annotations, RefKey(a.job.target));
      RefsAfterRemoveOne(w.pods[a.name].annotations, a.job.target);
    }
  }

  lemma CheckBeside(w: World, a: Actor, c: Choice)
    requires ActorInv(w, a) && a.job.Reconcile? && CheckPc(a.pc)
    ensures Beside(CheckStep(At(w.pods, a.name), a.job, a.pc, c).0) <==>
      (if a.pc.Prune? then Beside(CheckStep(At(w.pods, a.name), a.job, a.pc, c).0) && Beside(At(w.pods, a.name))
       else MakesBeside(At(w.pods, a.name), a, c) || Beside(At(w.pods, a.name)))
  {
    if a.pc.Prune? {
      if a.name in w.pods {
        RefsAfterRemove(w.pods[a.name].annotations, PruneKeys(a.job.current.annotations, a.job.live));
      }
    } else if a.pc.Postpone? {
    } else {
    }
  }

  lemma HandlerBeside(w: World, a: Actor, c: Choice)
    requires ActorInv(w, a) && a.job.Reconcile? && (a.pc.Fetch? || a.pc.Unfinalize? || LockedHandlerPc(a.pc))
    ensures MakesBeside(At(w.pods, a.name), a, c) <==>
      Beside(HandlerStep(At(w.pods, a.name), w.nextUid, a.pc, c).0) && !Beside(At(w.pods, a.name))
  {
    if a.pc.MergeBack? {
    } else if a.pc.Recreate? {
    } else {
    }
  }

  lemma CallBeside(w: World, a: Actor, c: Choice)
    requires ActorInv(w, a) && Calling(a.pc)
    ensures MakesBeside(At(w.pods, a.name), a, c) <==>
      Beside(ActorStep(At(w.pods, a.name), w.nextUid, a, c).0) && !Beside(At(w.pods, a.name))
  {
    match a.job
    case Publish(_, _) => PublishNotBeside(w, a, c);
    case Unpublish(_) => UnpublishNotBeside(w, a, c);
    case Reconcile(_, _, _) =>
      if CheckPc(a.pc) {
        CheckBeside(w, a, c);
      } else {
        HandlerBeside(w, a, c);
      }
  }

  /** In every reachable world, and for every action: a pod comes to have a stamp and references exactly by one of
      these calls about it. */
  lemma BesideIff(w: World, act: Action, n: Name)
    requires Reachable(w) && Enabled(w, act)
    ensures Beside(At(Apply(w, act).pods, n)) && !Beside(At(w.pods, n)) <==>
      act.Call? && w.actors[act.id].name == n && MakesBeside(At(w.pods, n), w.actors[act.id], act.choice)
  {
    ReachableInv(w);
    if act.Call? {
      var a := w.actors[act.id];
      assert ActorInv(w, a);
      CallBeside(w, a, act.choice);
      StoredIs(w, act.id, act.choice, n);
    } else if act.Annotate? {
      assert Refs(Apply(w, act).pods[act.name].annotations) == Refs(w.pods[act.name].annotations);
    }
  }

  // ---------- each of them happens ----------

  /** After such a stamp the pod is deleted and brought back, stamp and references together. */
  lemma RecreateCopiesStamp(k: Cast) returns (w: World)
    requires ShowsIdle(k.job) && k.job.errored && WellFormed(Snapshot(k)) && RefKey(k.first) !in Snapshot(k)
    ensures Reachable(w) && 0 in w.actors && w.actors[0].pc.Recreate?
    ensures MakesBeside(At(w.pods, k.name), w.actors[0], OK)
  {
    var s, f := StampedAndFetched(k);
    HandlerLetsItGo(k, s, f, f);
    var v := s.(pod := None, run := WaitLockAgain(f), gone := s.gone[(k.name, f.uid) := Refs(f.annotations)]);
    HandlerFindsItGone(k, v, f);
    Arrives(k, v.(holder := Some(0), run := Recreate(f)));
    w := WorldAt(k, v.(holder := Some(0), run := Recreate(f)));
    assert w.actors[0] == Person(k, v.(holder := Some(0), run := Recreate(f)), 0);
  }

  lemma StampedAndFetched(k: Cast) returns (s: Stage, f: Pod)
    requires ShowsIdle(k.job) && k.job.errored && WellFormed(Snapshot(k)) && RefKey(k.first) !in Snapshot(k)
    ensures Reached(k, s) && s.run == Unfinalize(f) && s.pod == Some(f) && f.terminating && s.holder.None?
    ensures Beside(Some(f))
  {
    var sec := ShouldDelay(Snapshot(k), 0).sec;
    var b := BeforeStamp(k);
    var p := LatePod(k).(annotations := WithStamp(LatePod(k).annotations, sec));
    ReachesStamp(k);
    StampsPod(k, b, sec);
    Unlocks(k, b.(pod := Some(p), run := ReleaseToHandle), 0);
    f := p.(terminating := true);
    s := b.(pod := Some(f), run := Unfinalize(f), holder := None);
    IsFetched(k, b.(pod := Some(p), run := Fetch, holder := None), p);
    assert k.first in Refs(f.annotations);
  }

  lemma IsFetched(k: Cast, s: Stage, p: Pod)
    requires Reached(k, s) && k.job.Reconcile? && s.run == Fetch && s.pod == Some(p) && p.finalizer
    ensures Reached(k, s.(pod := Some(p.(terminating := true)), run := Unfinalize(p.(terminating := true))))
  {
    var f := p.(terminating := true);
    IsDeleted(k, s);
    HandlerCalls(k, s.(pod := Some(f)), OK, Some(f), Unfinalize(f));
  }

  // The other way: while the handler is without the lock, a publisher creates the pod anew and leaves again, so that
  // it is stamped; then the handler merges the old references in.

  lemma LeaverFinds(k: Cast, s: Stage, uid: nat)
    requires Reached(k, s) && k.leaves && k.late == k.first && s.late == Some(FindPod) && s.pod == Some(Made(k, uid))
    ensures Reached(k, s.(late := Some(RemoveKey)))
  {
    LeaverCalls(k, s, OK, s.pod, FindKey);
    LeaverCalls(k, s.(late := Some(FindKey)), OK, s.pod, RemoveKey);
  }

  lemma LeaverRemoves(k: Cast, s: Stage, uid: nat)
    requires Reached(k, s) && k.leaves && k.late == k.first && s.late == Some(RemoveKey) && s.pod == Some(Made(k, uid))
    ensures Reached(k, s.(pod := Some(Made(k, uid).(annotations := BaseOf(k))), late := Some(CountRefs)))
  {
    var p := Made(k, uid);
    RemoveOne(p.annotations, RefKey(k.late));
    assert p.annotations - {RefKey(k.late)} == BaseOf(k);
    LeaverCalls(k, s, OK, Some(p.(annotations := BaseOf(k))), CountRefs);
  }

  /** The pod without references, stamped. */
  function Left(k: Cast, uid: nat): (p: Pod)
    requires k.delay.Some?
  {
    Made(k, uid).(annotations := WithStamp(BaseOf(k), k.delay.value / SECOND))
  }

  lemma LeaverJudges(k: Cast, s: Stage, uid: nat)
    requires k.delay.Some? && Reached(k, s) && k.leaves && s.late == Some(CountRefs)
    requires s.pod == Some(Made(k, uid).(annotations := BaseOf(k)))
    ensures Reached(k, s.(late := Some(StampIdle(k.delay.value / SECOND))))
  {
    assert Refs(BaseOf(k)) == {} && ShouldDelay(BaseOf(k), 0) == AddStamp(k.delay.value / SECOND);
    LeaverCalls(k, s, OK, s.pod, CheckIdle);
    LeaverCalls(k, s.(late := Some(CheckIdle)), OK, s.pod, StampIdle(k.delay.value / SECOND));
  }

  lemma LeaverStamps(k: Cast, s: Stage, uid: nat)
    requires k.delay.Some? && Reached(k, s) && k.leaves && s.late == Some(StampIdle(k.delay.value / SECOND))
    requires s.pod == Some(Made(k, uid).(annotations := BaseOf(k))) && s.holder.Some?
    ensures Reached(k, s.(pod := Some(Left(k, uid)), late := Some(Done), holder := None))
  {
    LeaverCalls(k, s, OK, Some(Left(k, uid)), Release);
    Unlocks(k, s.(pod := Some(Left(k, uid)), late := Some(Release)), 2);
  }

  /** A leaver comes, takes the only reference away and stamps the pod. */
  lemma LeaverLeaves(k: Cast, s: Stage, uid: nat)
    requires k.delay.Some? && Reached(k, s) && k.leaves && k.late == k.first && s.late.None? && s.holder.None?
    requires s.pod == Some(Made(k, uid))
    ensures Reached(k, s.(pod := Some(Left(k, uid)), late := Some(Done)))
  {
    Comes(k, s, 2);
    Locks(k, s.(late := Some(WaitLock)), 2);
    var h := s.(holder := Some(2));
    LeaverFinds(k, h.(late := Some(FindPod)), uid);
    LeaverWorks(k, h.(late := Some(RemoveKey)), uid);
    assert h.(late := Some(RemoveKey), pod := Some(Left(k, uid))).(late := Some(Done), holder := None) ==
      s.(pod := Some(Left(k, uid)), late := Some(Done));
  }

  lemma LeaverWorks(k: Cast, s: Stage, uid: nat)
    requires k.delay.Some? && Reached(k, s) && k.leaves && k.late == k.first && s.late == Some(RemoveKey)
    requires s.pod == Some(Made(k, uid)) && s.holder.Some?
    ensures Reached(k, s.(pod := Some(Left(k, uid)), late := Some(Done), holder := None))
  {
    var emptied := s.(pod := Some(Made(k, uid).(annotations := BaseOf(k))));
    LeaverRemoves(k, s, uid);
    LeaverJudges(k, emptied.(late := Some(CountRefs)), uid);
    LeaverStamps(k, emptied.(late := Some(StampIdle(k.delay.value / SECOND))), uid);
  }

  /** The handler fetched the deleted pod with live references and let it go. */
  lemma LetsSnapshotGo(k: Cast) returns (s: Stage, f: Pod)
    requires k.job.Reconcile? && WellFormed(Snapshot(k)) && (k.job.errored || k.job.current.terminating)
    requires LiveRefs(Snapshot(k), k.job.live) != {}
    ensures Reached(k, s) && s.run == WaitLockAgain(f) && Refs(f.annotations) != {}
    ensures s.pod.None? && s.holder.None? && s.first.None? && s.late.None?
  {
    var uid := k.job.current.uid;
    var p := Pod(uid, true, true, Snapshot(k));
    f := p.(annotations := Pruned(k));
    var s0 := Stage(Some(f), uid + 1, None, Fetch, None, None, map[]);
    GetsToHandler(k, p, 0);
    KeysOfSnapshot(k);
    HandlerCalls(k, s0, OK, Some(f), Unfinalize(f));
    HandlerLetsItGo(k, s0.(run := Unfinalize(f)), f, f);
    s := s0.(pod := None, run := WaitLockAgain(f), gone := map[][(k.name, uid) := Refs(f.annotations)]);
  }

  lemma MeetsLeft(k: Cast, s: Stage, f: Pod, found: Pod)
    requires k.job.Reconcile? && Reached(k, s) && s.run == WaitLockAgain(f) && s.holder.None?
    requires s.pod == Some(found) && !found.terminating
    ensures Reached(k, s.(holder := Some(0), run := MergeBack(f, found)))
  {
    Locks(k, s, 0);
    HandlerCalls(k, s.(holder := Some(0), run := PollGone(f)), OK, Some(found), MergeBack(f, found));
  }

  /** Meanwhile a publisher creates the pod anew, and leaves again. */
  lemma CreatesAndLeaves(k: Cast, s: Stage) returns (s': Stage)
    requires k.delay.Some? && k.leaves && k.late == k.first
    requires Reached(k, s) && s.pod.None? && s.holder.None? && s.first.None? && s.late.None?
    ensures Reached(k, s') && s'.run == s.run && s'.holder.None? && s'.pod == Some(Left(k, s.next))
  {
    var made := s.(pod := Some(Made(k, s.next)), next := s.next + 1, first := Some(Done));
    PublisherCreates(k, s, 1);
    LeaverLeaves(k, made, s.next);
    s' := made.(pod := Some(Left(k, s.next)), late := Some(Done));
  }

  lemma LeftForHandler(k: Cast) returns (s: Stage, f: Pod)
    requires k.delay.Some? && k.leaves && k.late == k.first
    requires k.job.Reconcile? && WellFormed(Snapshot(k)) && (k.job.errored || k.job.current.terminating)
    requires LiveRefs(Snapshot(k), k.job.live) != {}
    ensures Reached(k, s) && s.run == WaitLockAgain(f) && Refs(f.annotations) != {} && s.holder.None?
    ensures exists uid :: s.pod == Some(Left(k, uid))
  {
    var s0, f0 := LetsSnapshotGo(k);
    f := f0;
    s := CreatesAndLeaves(k, s0);
  }

  /** For every job with live references that gets to its handler. */
  lemma MergeMeetsStamp(k: Cast) returns (w: World)
    requires k.delay.Some? && k.leaves && k.late == k.first
    requires k.job.Reconcile? && WellFormed(Snapshot(k)) && (k.job.errored || k.job.current.terminating)
    requires LiveRefs(Snapshot(k), k.job.live) != {}
    ensures Reachable(w) && 0 in w.actors && w.actors[0].pc.MergeBack?
    ensures MakesBeside(At(w.pods, k.name), w.actors[0], OK)
  {
    var s, f := LeftForHandler(k);
    var uid :| s.pod == Some(Left(k, uid));
    MeetsLeft(k, s, f, Left(k, uid));
    w := MergeWorld(k, s.(holder := Some(0), run := MergeBack(f, Left(k, uid))), uid, f);
  }

  lemma MergeWorld(k: Cast, s: Stage, uid: nat, f: Pod) returns (w: World)
    requires k.delay.Some? && k.job.Reconcile? && Reached(k, s)
    requires s.pod == Some(Left(k, uid)) && s.run == MergeBack(f, Left(k, uid)) && Refs(f.annotations) != {}
    ensures Reachable(w) && 0 in w.actors && w.actors[0].pc.MergeBack?
    ensures MakesBeside(At(w.pods, k.name), w.actors[0], OK)
  {
    Arrives(k, s);
    w := WorldAt(k, s);
    assert w.actors[0] == Person(k, s, 0);
    assert Refs(BaseOf(k)) == {};
  }
}
