/** Under the lock of its pod an actor works alone: its calls together do to the pod what one operation of `PodOps`
    does. */
module ProtocolAtomicity {
  import opened MountPod
  import opened PodOps
  import opened Wrappers
  import opened Protocol
  import opened ProtocolInvariant
  import opened ProtocolSafety

  // ---------- what others may do to a locked pod ----------

  /** The same annotations, apart from those that others may write at any time. */
  ghost predicate Agree(a: Annotations, b: Annotations) {
    forall k: Key :: !k.OtherKey? ==> (k in a <==> k in b) && (k in a ==> a[k] == b[k])
  }

  /** What an action of somebody else does to a locked pod: it annotates it otherwise, takes its finalizer off, deletes
      it from outside, or drops it once it is terminating. */
  ghost predicate Touched(p: Option<Pod>, p': Option<Pod>, deleted: bool) {
    && (p.None? ==> p'.None?)
    && (p'.None? ==> p.None? || p.value.terminating)
    && (p'.Some? ==>
         && p'.value.uid == p.value.uid && Agree(p'.value.annotations, p.value.annotations)
         && (p'.value.terminating <==> p.value.terminating || deleted))
  }

  /** The server stores `q`, up to what others did; `out` tells whether the pod was deleted from outside meanwhile. */
  ghost predicate Holds(p: Option<Pod>, q: Pod, out: bool) {
    if p.None? then q.terminating || out
    else
      && p.value.uid == q.uid && Agree(p.value.annotations, q.annotations)
      && (q.terminating ==> p.value.terminating)
      && (p.value.terminating ==> q.terminating || out)
  }

  lemma HoldsOn(p: Option<Pod>, p': Option<Pod>, q: Pod, out: bool, deleted: bool)
    requires Holds(p, q, out) && Touched(p, p', deleted)
    ensures Holds(p', q, out || deleted)
  {
  }

  lemma AgreeFacts(a: Annotations, b: Annotations)
    requires Agree(a, b)
    ensures Refs(a) == Refs(b)
    ensures forall now :: ShouldDelay(a, now) == ShouldDelay(b, now)
  {
    forall t ensures HasRef(a, t) <==> HasRef(b, t) {
      assert RefKey(t) in a <==> RefKey(t) in b;
    }
    assert DelayTimeKey in a <==> DelayTimeKey in b;
    assert DeleteAtKey in a <==> DeleteAtKey in b;
  }

  lemma OthersTouch(w: World, act: Action, i: ActorId)
    requires Inv(w) && Enabled(w, act) && i in w.actors && Critical(w.actors[i].pc)
    requires act != Unlock(i) && (act.Call? ==> act.id != i)
    ensures i in Apply(w, act).actors && Apply(w, act).actors[i] == w.actors[i]
    ensures var n := w.actors[i].name;
      Touched(At(w.pods, n), At(Apply(w, act).pods, n), act == ExternalDelete(n))
  {
    if act.Call? {
      OtherCallTouches(w, act.id, act.choice, i);
    } else if act.Spawn? || act.Lock? || act.Unlock? {
      TurnTouches(w, act, i);
    } else {
      OutsideTouches(w, act, w.actors[i].name);
    }
  }

  lemma TurnTouches(w: World, act: Action, i: ActorId)
    requires Enabled(w, act) && i in w.actors && Critical(w.actors[i].pc)
    requires act != Unlock(i) && (act.Spawn? || act.Lock? || act.Unlock?)
    ensures i in Apply(w, act).actors && Apply(w, act).actors[i] == w.actors[i] && Apply(w, act).pods == w.pods
  {
  }

  lemma OutsideTouches(w: World, act: Action, n: Name)
    requires Enabled(w, act) && (act.ExternalDelete? || act.Vanish? || act.Annotate?)
    ensures Apply(w, act).actors == w.actors
    ensures Touched(At(w.pods, n), At(Apply(w, act).pods, n), act == ExternalDelete(n))
  {
    match act
    case ExternalDelete(_) =>
    case Vanish(_) =>
    case Annotate(_, _, _) =>
  }

  lemma OtherCallTouches(w: World, j: ActorId, c: Choice, i: ActorId)
    requires Inv(w) && Enabled(w, Call(j, c)) && i in w.actors && Critical(w.actors[i].pc) && i != j
    ensures Apply(w, Call(j, c)).actors[i] == w.actors[i]
    ensures var n := w.actors[i].name; Touched(At(w.pods, n), At(Apply(w, Call(j, c)).pods, n), false)
  {
    PairApart(w, i, j);
    StoredIs(w, j, c, w.actors[i].name);
    if w.actors[j].name == w.actors[i].name {
      assert ActorInv(w, w.actors[j]);
      OutsideCall(At(w.pods, w.actors[j].name), w.nextUid, w.actors[j], c);
    }
  }

  lemma OutsideCall(p: Option<Pod>, uid: nat, a: Actor, c: Choice)
    requires Fits(a) && Calling(a.pc) && !Critical(a.pc)
    ensures Touched(p, ActorStep(p, uid, a, c).0, false)
  {
    assert ActorStep(p, uid, a, c) == HandlerStep(p, uid, a.pc, c);
  }

  // ---------- what has been done so far ----------

  /** Nothing yet. */
  ghost predicate Fresh(p0: Option<Pod>, p: Option<Pod>, out: bool) {
    if p0.None? then p.None? else Holds(p, p0.value, out)
  }

  /** The pod is gone, or it will go. */
  predicate Going(p0: Option<Pod>, out: bool) {
    p0.None? || p0.value.terminating || out
  }

  predicate Alive(p0: Option<Pod>) {
    p0.Some? && !p0.value.terminating
  }

  /** A new pod with these annotations. */
  ghost predicate HoldsNew(p: Option<Pod>, a: Annotations, out: bool) {
    exists uid :: Holds(p, Pod(uid, false, true, a), out)
  }

  ghost predicate PublishMid(t: Target, base: Annotations, pc: Pc, p0: Option<Pod>, p: Option<Pod>, out: bool) {
    match pc
    case Poll => Fresh(p0, p, out)
    case Create => p.None? && Going(p0, out)
    case AddGet => Alive(p0) && Holds(p, p0.value, out)
    case AddPatch(seen) =>
      && Alive(p0) && Holds(p, p0.value, out)
      && Agree(seen.annotations, p0.value.annotations) && RefKey(t) !in p0.value.annotations
    case Release => Published(t, base, p0, p, out)
    case _ => false
  }

  /** The reference was added; or the pod was created with it, since there was none or it was going; or a live pod was
      deleted from outside too early. */
  ghost predicate Published(t: Target, base: Annotations, p0: Option<Pod>, p: Option<Pod>, out: bool) {
    || (Alive(p0) && Holds(p, p0.value.(annotations := AddRef(p0.value.annotations, t)), out))
    || (Going(p0, out) && HoldsNew(p, base[RefKey(t) := Text(t)], out))
    || (Alive(p0) && out && Holds(p, p0.value, out))
  }

  function Dropped(p: Pod, t: Target): (r: Pod) {
    p.(annotations := DropRef(p.annotations, t))
  }

  ghost predicate UnpublishMid(t: Target, pc: Pc, p0: Option<Pod>, p: Option<Pod>, times: set<int>, out: bool) {
    if p0.None? then p.None? && (pc.FindPod? || pc.CountRefs? || pc.CheckIdle? || pc.Release?)
    else
      var q := Dropped(p0.value, t);
      match pc
      case FindPod => Holds(p, p0.value, out)
      case FindKey => Holds(p, p0.value, out)
      case RemoveKey => Holds(p, p0.value, out) && RefKey(t) in p0.value.annotations
      case CountRefs => Holds(p, q, out)
      case CheckIdle => Holds(p, q, out) && (p.Some? ==> Refs(q.annotations) == {})
      case StampIdle(at) =>
        Holds(p, q, out) && Refs(q.annotations) == {} && Judged(q.annotations, AddStamp(at), times)
      case DeleteIdle =>
        Holds(p, q, out) && Refs(q.annotations) == {} && Judged(q.annotations, DeleteNow, times)
      case Release => Unpublished(t, p0.value, p, times, out)
      case _ => false
  }

  /** One removal and one retirement, at one of these times. */
  ghost predicate Unpublished(t: Target, p0: Pod, p: Option<Pod>, times: set<int>, out: bool) {
    exists now :: now in times && Holds(p, Retire(Dropped(p0, t), now), out)
  }

  /** This verdict was given at one of these times. */
  ghost predicate Judged(a: Annotations, v: Verdict, times: set<int>) {
    exists now :: now in times && ShouldDelay(a, now) == v
  }

  /** The snapshot asks to retire its pod. */
  predicate AsksToRetire(job: Job)
    requires job.Reconcile?
  {
    LiveRefs(job.current.annotations, job.live) == {} && !job.current.terminating
  }

  ghost predicate CheckMid(job: Job, pc: Pc, p0: Option<Pod>, p: Option<Pod>, times: set<int>, out: bool)
    requires job.Reconcile?
  {
    if p0.None? then p.None? && (CheckPc(pc) || pc.Release? || pc.ReleaseToHandle?)
    else
      var pruned := PruneStored(job.current, p0.value, job.live);
      match pc
      case Inspect => Holds(p, p0.value, out)
      case Compare => Holds(p, p0.value, out) && PruneKeys(job.current.annotations, job.live) != {}
      case Prune =>
        && Holds(p, p0.value, out) && PruneKeys(job.current.annotations, job.live) != {}
        && |Refs(p0.value.annotations)| == |Refs(job.current.annotations)|
      case Idle => pruned.Some? && Holds(p, pruned.value, out)
      case Postpone(at) =>
        && pruned.Some? && Holds(p, pruned.value, out)
        && AsksToRetire(job) && Judged(job.current.annotations, AddStamp(at), times)
      case Recount =>
        && pruned.Some? && Holds(p, pruned.value, out)
        && AsksToRetire(job) && Judged(job.current.annotations, DeleteNow, times)
      case Delete =>
        && pruned.Some? && Holds(p, pruned.value, out) && Refs(pruned.value.annotations) == {}
        && AsksToRetire(job) && Judged(job.current.annotations, DeleteNow, times)
      case ReleaseToHandle => CheckedAt(job, p0.value, p, true, times, out)
      case Release => CheckedAt(job, p0.value, p, false, times, out)
      case _ => false
  }

  /** `checkAnnotations` as one operation, and whether it succeeds; a pod that goes meanwhile makes it fail. */
  ghost predicate Checked(job: Job, p0: Pod, p: Option<Pod>, succeeds: bool, now: int, out: bool)
    requires job.Reconcile?
  {
    && Holds(p, CheckAnnotations(job.current, p0, job.live, now), out)
    && (p.Some? ==> (succeeds <==> CheckSucceeds(job.current, p0, job.live, now)))
    && (succeeds ==> CheckSucceeds(job.current, p0, job.live, now))
  }

  ghost predicate CheckedAt(job: Job, p0: Pod, p: Option<Pod>, succeeds: bool, times: set<int>, out: bool)
    requires job.Reconcile?
  {
    exists now :: now in times && Checked(job, p0, p, succeeds, now, out)
  }

  ghost predicate HandlerMid(f: Pod, pc: Pc, p0: Option<Pod>, p: Option<Pod>, out: bool) {
    match pc
    case PollGone(g) => g == f && Fresh(p0, p, out)
    case Recreate(g) => g == f && p.None? && Going(p0, out)
    case MergeBack(g, found) =>
      g == f && Alive(p0) && Holds(p, p0.value, out) && Agree(found.annotations, p0.value.annotations)
    case Release => BroughtBack(f, p0, p, out)
    case _ => false
  }

  /** The fetched references were merged into the live pod that was there; or the pod was created as it was fetched,
      with all annotations. */
  ghost predicate BroughtBack(f: Pod, p0: Option<Pod>, p: Option<Pod>, out: bool) {
    || (Alive(p0) && Holds(p, p0.value.(annotations := WithRefsOf(p0.value.annotations, f.annotations)), out))
    || (Going(p0, out) && HoldsNew(p, f.annotations, out))
  }

  // ---------- own calls ----------

  lemma PublishOwn(w: World, a: Actor, c: Choice, p0: Option<Pod>, out: bool)
    requires ActorInv(w, a) && a.job.Publish? && PublishPc(a.pc) && c.ok
    requires PublishMid(a.job.target, a.job.base, a.pc, p0, At(w.pods, a.name), out)
    ensures var r := PublishStep(At(w.pods, a.name), w.nextUid, a.job.target, a.job.base, a.pc, c);
      PublishMid(a.job.target, a.job.base, r.1, p0, r.0, out)
  {
    var p, t := At(w.pods, a.name), a.job.target;
    match a.pc
    case Poll =>
    case Create => assert Holds(PublishStep(p, w.nextUid, t, a.job.base, Create, c).0,
                                Pod(w.nextUid, false, true, a.job.base[RefKey(t) := Text(t)]), out);
    case AddGet =>
      if p.Some? {
        assert RefKey(t) in p.value.annotations <==> RefKey(t) in p0.value.annotations;
      }
    case AddPatch(seen) => AgreeAdd(seen.annotations, p0.value.annotations, t);
  }

  lemma AgreeAdd(a: Annotations, b: Annotations, t: Target)
    requires Agree(a, b)
    ensures Agree(WithRef(a, t), WithRef(b, t))
  {
  }

  lemma UnpublishOwn(p: Option<Pod>, t: Target, pc: Pc, c: Choice, p0: Option<Pod>, times: set<int>, out: bool)
    requires UnpublishPc(pc) && c.ok && UnpublishMid(t, pc, p0, p, times, out)
    ensures var r := UnpublishStep(p, t, pc, c); UnpublishMid(t, r.1, p0, r.0, times + {c.now}, out)
  {
    if p0.Some? && p.Some? {
      var q := Dropped(p0.value, t);
      if pc.FindPod? || pc.FindKey? || pc.RemoveKey? {
        UnpublishRemoves(p.value, t, pc, c, p0.value, times, out);
      } else {
        AgreeFacts(p.value.annotations, q.annotations);
        UnpublishRetires(p.value, t, pc, c, p0.value, times, out);
      }
    } else if p0.Some? {
      UnpublishMisses(t, pc, c, p0.value, times, out);
    }
  }

  lemma UnpublishRemoves(p: Pod, t: Target, pc: Pc, c: Choice, p0: Pod, times: set<int>, out: bool)
    requires pc.FindPod? || pc.FindKey? || pc.RemoveKey?
    requires c.ok && UnpublishMid(t, pc, Some(p0), Some(p), times, out)
    ensures var r := UnpublishStep(Some(p), t, pc, c); UnpublishMid(t, r.1, Some(p0), r.0, times + {c.now}, out)
  {
    RemoveOne(p.annotations, RefKey(t));
    assert RefKey(t) in p.annotations <==> RefKey(t) in p0.annotations;
  }

  lemma UnpublishRetires(p: Pod, t: Target, pc: Pc, c: Choice, p0: Pod, times: set<int>, out: bool)
    requires pc.CountRefs? || pc.CheckIdle? || pc.StampIdle? || pc.DeleteIdle?
    requires c.ok && UnpublishMid(t, pc, Some(p0), Some(p), times, out)
    ensures var r := UnpublishStep(Some(p), t, pc, c); UnpublishMid(t, r.1, Some(p0), r.0, times + {c.now}, out)
  {
    var q := Dropped(p0, t);
    AgreeFacts(p.annotations, q.annotations);
    match pc
    case CountRefs =>
      if Refs(p.annotations) != {} {
        assert Holds(Some(p), Retire(q, c.now), out);
      }
    case CheckIdle =>
      assert c.now in times + {c.now};
      if ShouldDelay(q.annotations, c.now).Wait? {
        assert Holds(Some(p), Retire(q, c.now), out);
      }
    case StampIdle(at) =>
      var now :| now in times && ShouldDelay(q.annotations, now) == AddStamp(at);
      assert Holds(Some(p.(annotations := WithStamp(p.annotations, at))), Retire(q, now), out);
    case DeleteIdle =>
      var now :| now in times && ShouldDelay(q.annotations, now) == DeleteNow;
      assert Holds(Some(p.(terminating := true)), Retire(q, now), out);
  }

  /** The pod went meanwhile. */
  lemma UnpublishMisses(t: Target, pc: Pc, c: Choice, p0: Pod, times: set<int>, out: bool)
    requires UnpublishPc(pc) && c.ok && UnpublishMid(t, pc, Some(p0), None, times, out)
    ensures var r := UnpublishStep(None, t, pc, c); UnpublishMid(t, r.1, Some(p0), r.0, times + {c.now}, out)
  {
    assert Holds(None, Retire(Dropped(p0, t), c.now), out);
  }

  lemma CheckOwn(p: Option<Pod>, job: Job, pc: Pc, c: Choice, p0: Option<Pod>, times: set<int>, out: bool)
    requires job.Reconcile? && CheckPc(pc) && c.ok && CheckMid(job, pc, p0, p, times, out)
    ensures var r := CheckStep(p, job, pc, c); CheckMid(job, r.1, p0, r.0, times + {c.now}, out)
  {
    if p0.None? {
      CheckInside(None, job, pc, c);
    } else {
      if p.None? {
        CheckMisses(job, pc, c, p0.value, times, out);
      } else if pc.Inspect? || pc.Compare? || pc.Prune? {
        CheckOwnPrunes(p.value, job, pc, c, p0.value, times, out);
      } else if pc.Idle? {
        CheckOwnIdle(p.value, job, c, p0.value, times, out);
      } else if pc.Recount? {
        CheckOwnRecount(p.value, job, c, p0.value, times, out);
      } else if pc.Postpone? {
        CheckOwnStamps(p.value, job, pc.at, c, p0.value, times, out);
      } else {
        CheckOwnDeletes(p.value, job, c, p0.value, times, out);
      }
    }
  }

  lemma CheckMisses(job: Job, pc: Pc, c: Choice, p0: Pod, times: set<int>, out: bool)
    requires job.Reconcile? && CheckPc(pc) && c.ok && CheckMid(job, pc, Some(p0), None, times, out)
    ensures var r := CheckStep(None, job, pc, c); CheckMid(job, r.1, Some(p0), r.0, times + {c.now}, out)
  {
    assert c.now in times + {c.now};
    if !CheckStep(None, job, pc, c).1.ReleaseToHandle? {
      assert Checked(job, p0, None, false, c.now, out);
    } else {
      assert Checked(job, p0, None, true, c.now, out);
    }
  }

  lemma CheckOwnPrunes(p: Pod, job: Job, pc: Pc, c: Choice, p0: Pod, times: set<int>, out: bool)
    requires job.Reconcile? && (pc.Inspect? || pc.Compare? || pc.Prune?)
    requires c.ok && CheckMid(job, pc, Some(p0), Some(p), times, out)
    ensures var r := CheckStep(Some(p), job, pc, c); CheckMid(job, r.1, Some(p0), r.0, times + {c.now}, out)
  {
    var keys := PruneKeys(job.current.annotations, job.live);
    AgreeFacts(p.annotations, p0.annotations);
    assert c.now in times + {c.now};
    assert keys <= p.annotations.Keys <==> keys <= p0.annotations.Keys by {
      assert forall k :: k in keys ==> !k.OtherKey?;
    }
    if CheckStep(Some(p), job, pc, c).1.Release? {
      assert Checked(job, p0, Some(p), false, c.now, out);
    }
  }

  lemma CheckOwnIdle(p: Pod, job: Job, c: Choice, p0: Pod, times: set<int>, out: bool)
    requires job.Reconcile? && c.ok && CheckMid(job, Idle, Some(p0), Some(p), times, out)
    ensures var r := CheckStep(Some(p), job, Idle, c); CheckMid(job, r.1, Some(p0), r.0, times + {c.now}, out)
  {
    assert c.now in times + {c.now};
    if CheckStep(Some(p), job, Idle, c).1.ReleaseToHandle? {
      assert Checked(job, p0, Some(p), true, c.now, out);
    }
  }

  lemma CheckOwnRecount(p: Pod, job: Job, c: Choice, p0: Pod, times: set<int>, out: bool)
    requires job.Reconcile? && c.ok && CheckMid(job, Recount, Some(p0), Some(p), times, out)
    ensures var r := CheckStep(Some(p), job, Recount, c); CheckMid(job, r.1, Some(p0), r.0, times + {c.now}, out)
  {
    AgreeFacts(p.annotations, PruneStored(job.current, p0, job.live).value.annotations);
    if Refs(p.annotations) != {} {
      var now :| now in times && ShouldDelay(job.current.annotations, now) == DeleteNow;
      assert Checked(job, p0, Some(p), false, now, out);
      assert now in times + {c.now};
    }
  }

  lemma StampsAsOne(p: Pod, job: Job, p0: Pod, now: int, out: bool)
    requires job.Reconcile? && AsksToRetire(job) && ShouldDelay(job.current.annotations, now).AddStamp?
    requires PruneStored(job.current, p0, job.live).Some?
    requires Holds(Some(p), PruneStored(job.current, p0, job.live).value, out)
    ensures var at := ShouldDelay(job.current.annotations, now).sec;
      Checked(job, p0, Some(p.(annotations := WithStamp(p.annotations, at))), true, now, out)
  {
    CheckHalves(job.current, p0, PruneStored(job.current, p0, job.live).value, job.live, now);
  }

  lemma CheckOwnStamps(p: Pod, job: Job, at: int, c: Choice, p0: Pod, times: set<int>, out: bool)
    requires job.Reconcile? && c.ok && CheckMid(job, Postpone(at), Some(p0), Some(p), times, out)
    ensures var r := CheckStep(Some(p), job, Postpone(at), c);
      CheckMid(job, r.1, Some(p0), r.0, times + {c.now}, out)
  {
    var now :| now in times && ShouldDelay(job.current.annotations, now) == AddStamp(at);
    StampsAsOne(p, job, p0, now, out);
    assert now in times + {c.now};
  }

  lemma DeletesAsOne(p: Pod, job: Job, p0: Pod, now: int, out: bool)
    requires job.Reconcile? && AsksToRetire(job) && ShouldDelay(job.current.annotations, now).DeleteNow?
    requires PruneStored(job.current, p0, job.live).Some?
    requires Refs(PruneStored(job.current, p0, job.live).value.annotations) == {}
    requires Holds(Some(p), PruneStored(job.current, p0, job.live).value, out)
    ensures Checked(job, p0, Some(p.(terminating := true)), true, now, out)
  {
    CheckHalves(job.current, p0, PruneStored(job.current, p0, job.live).value, job.live, now);
  }

  lemma CheckOwnDeletes(p: Pod, job: Job, c: Choice, p0: Pod, times: set<int>, out: bool)
    requires job.Reconcile? && c.ok && CheckMid(job, Delete, Some(p0), Some(p), times, out)
    ensures var r := CheckStep(Some(p), job, Delete, c); CheckMid(job, r.1, Some(p0), r.0, times + {c.now}, out)
  {
    var now :| now in times && ShouldDelay(job.current.annotations, now) == DeleteNow;
    DeletesAsOne(p, job, p0, now, out);
    assert now in times + {c.now};
  }

  lemma HandlerOwn(w: World, a: Actor, c: Choice, f: Pod, p0: Option<Pod>, out: bool)
    requires ActorInv(w, a) && LockedHandlerPc(a.pc) && c.ok && HandlerMid(f, a.pc, p0, At(w.pods, a.name), out)
    ensures var r := HandlerStep(At(w.pods, a.name), w.nextUid, a.pc, c); HandlerMid(f, r.1, p0, r.0, out)
  {
    var p := At(w.pods, a.name);
    match a.pc
    case PollGone(_) =>
    case Recreate(_) =>
      assert Holds(HandlerStep(p, w.nextUid, a.pc, c).0, Pod(w.nextUid, false, true, f.annotations), out);
    case MergeBack(_, found) => AgreeMerge(found.annotations, p0.value.annotations, f.annotations);
  }

  lemma AgreeMerge(a: Annotations, b: Annotations, lost: Annotations)
    requires Agree(a, b)
    ensures Agree(WithRefsOf(a, lost), WithRefsOf(b, lost))
  {
  }

  // ---------- whole critical sections ----------

  /** What actor `a` has done since it took the lock, when the server stored `p0`; `back` is the fetched pod of a
      handler that brings its pod back. */
  ghost predicate Mid(a: Actor, back: Option<Pod>, p0: Option<Pod>, p: Option<Pod>, times: set<int>, out: bool) {
    match a.job
    case Publish(t, base) => PublishMid(t, base, a.pc, p0, p, out)
    case Unpublish(t) => UnpublishMid(t, a.pc, p0, p, times, out)
    case Reconcile(_, _, _) =>
      if back.Some? then HandlerMid(back.value, a.pc, p0, p, out) else CheckMid(a.job, a.pc, p0, p, times, out)
  }

  lemma OwnStays(w: World, i: ActorId, c: Choice, back: Option<Pod>, p0: Option<Pod>, times: set<int>, out: bool)
    requires Inv(w) && Enabled(w, Call(i, c)) && Critical(w.actors[i].pc) && c.ok
    requires Mid(w.actors[i], back, p0, At(w.pods, w.actors[i].name), times, out)
    ensures var a' := Apply(w, Call(i, c)).actors[i];
      && a'.job == w.actors[i].job && a'.name == w.actors[i].name && Critical(a'.pc)
      && Mid(a', back, p0, At(Apply(w, Call(i, c)).pods, a'.name), times + {c.now}, out)
  {
    var a := w.actors[i];
    assert ActorInv(w, a);
    StoredIs(w, i, c, a.name);
    CallStaysInside(At(w.pods, a.name), w.nextUid, a, c);
    OwnMid(w, a, c, back, p0, times, out);
  }

  lemma OwnMid(w: World, a: Actor, c: Choice, back: Option<Pod>, p0: Option<Pod>, times: set<int>, out: bool)
    requires ActorInv(w, a) && Calling(a.pc) && Critical(a.pc) && c.ok
    requires Mid(a, back, p0, At(w.pods, a.name), times, out)
    ensures var r := ActorStep(At(w.pods, a.name), w.nextUid, a, c);
      Mid(a.(pc := r.1), back, p0, r.0, times + {c.now}, out)
  {
    match a.job
    case Publish(_, _) => PublishOwn(w, a, c, p0, out);
    case Unpublish(t) => UnpublishOwn(At(w.pods, a.name), t, a.pc, c, p0, times, out);
    case Reconcile(_, _, _) =>
      if back.Some? {
        HandlerOwn(w, a, c, back.value, p0, out);
      } else {
        CheckOwn(At(w.pods, a.name), a.job, a.pc, c, p0, times, out);
      }
  }

  lemma PublishTouched(t: Target, base: Annotations, pc: Pc, p0: Option<Pod>, p: Option<Pod>, out: bool,
                       p': Option<Pod>, deleted: bool)
    requires PublishMid(t, base, pc, p0, p, out) && Touched(p, p', deleted)
    ensures PublishMid(t, base, pc, p0, p', out || deleted)
  {
    if pc.Release? && Going(p0, out) && HoldsNew(p, base[RefKey(t) := Text(t)], out) {
      NewTouched(p, base[RefKey(t) := Text(t)], out, p', deleted);
    }
  }

  lemma NewTouched(p: Option<Pod>, a: Annotations, out: bool, p': Option<Pod>, deleted: bool)
    requires HoldsNew(p, a, out) && Touched(p, p', deleted)
    ensures HoldsNew(p', a, out || deleted)
  {
    var uid :| Holds(p, Pod(uid, false, true, a), out);
    HoldsOn(p, p', Pod(uid, false, true, a), out, deleted);
  }

  lemma UnpublishTouched(t: Target, pc: Pc, p0: Option<Pod>, p: Option<Pod>, times: set<int>, out: bool,
                         p': Option<Pod>, deleted: bool)
    requires UnpublishMid(t, pc, p0, p, times, out) && Touched(p, p', deleted)
    ensures UnpublishMid(t, pc, p0, p', times, out || deleted)
  {
    if p0.Some? && pc.Release? {
      var now :| now in times && Holds(p, Retire(Dropped(p0.value, t), now), out);
      HoldsOn(p, p', Retire(Dropped(p0.value, t), now), out, deleted);
    }
  }

  lemma CheckTouched(job: Job, pc: Pc, p0: Option<Pod>, p: Option<Pod>, times: set<int>, out: bool,
                     p': Option<Pod>, deleted: bool)
    requires job.Reconcile? && CheckMid(job, pc, p0, p, times, out) && Touched(p, p', deleted)
    ensures CheckMid(job, pc, p0, p', times, out || deleted)
  {
    if p0.Some? {
      if pc.Release? || pc.ReleaseToHandle? {
        var now :| now in times && Checked(job, p0.value, p, pc.ReleaseToHandle?, now, out);
        CheckedTouched(job, p0.value, p, pc.ReleaseToHandle?, now, out, p', deleted);
      } else {
        var q := if pc.Inspect? || pc.Compare? || pc.Prune? then p0.value
                 else PruneStored(job.current, p0.value, job.live).value;
        HoldsOn(p, p', q, out, deleted);
      }
    }
  }

  lemma CheckedTouched(job: Job, p0: Pod, p: Option<Pod>, succeeds: bool, now: int, out: bool,
                       p': Option<Pod>, deleted: bool)
    requires job.Reconcile? && Checked(job, p0, p, succeeds, now, out) && Touched(p, p', deleted)
    ensures Checked(job, p0, p', succeeds, now, out || deleted)
  {
    HoldsOn(p, p', CheckAnnotations(job.current, p0, job.live, now), out, deleted);
  }

  lemma HandlerTouched(f: Pod, pc: Pc, p0: Option<Pod>, p: Option<Pod>, out: bool, p': Option<Pod>, deleted: bool)
    requires HandlerMid(f, pc, p0, p, out) && Touched(p, p', deleted)
    ensures HandlerMid(f, pc, p0, p', out || deleted)
  {
    if pc.Release? && Going(p0, out) && HoldsNew(p, f.annotations, out) {
      NewTouched(p, f.annotations, out, p', deleted);
    }
  }

  /** Others leave the work of an actor that holds the lock as it is. */
  lemma MidTouched(a: Actor, back: Option<Pod>, p0: Option<Pod>, p: Option<Pod>, times: set<int>, out: bool,
                   p': Option<Pod>, deleted: bool)
    requires Mid(a, back, p0, p, times, out) && Touched(p, p', deleted)
    ensures Mid(a, back, p0, p', times, out || deleted)
  {
    match a.job
    case Publish(t, base) => PublishTouched(t, base, a.pc, p0, p, out, p', deleted);
    case Unpublish(t) => UnpublishTouched(t, a.pc, p0, p, times, out, p', deleted);
    case Reconcile(_, _, _) =>
      if back.Some? {
        HandlerTouched(back.value, a.pc, p0, p, out, p', deleted);
      } else {
        CheckTouched(a.job, a.pc, p0, p, times, out, p', deleted);
      }
  }

  /** The times of the actor's own calls. */
  function Times(run: seq<Action>, i: ActorId): (times: set<int>) {
    set k | 0 <= k < |run| && run[k].Call? && run[k].id == i :: run[k].choice.now
  }

  /** Somebody outside deletes the pod. */
  predicate Deletes(run: seq<Action>, n: Name) {
    ExternalDelete(n) in run
  }

  /** Actor `i` is inside the lock and has done this much. */
  ghost predicate Working(w: World, i: ActorId, n: Name, job: Job, back: Option<Pod>, p0: Option<Pod>,
                          times: set<int>, out: bool) {
    && i in w.actors && w.actors[i].name == n && w.actors[i].job == job && Critical(w.actors[i].pc)
    && Mid(w.actors[i], back, p0, At(w.pods, n), times, out)
  }

  lemma {:induction false} WorkingLasts(w: World, run: seq<Action>, w': World, i: ActorId, n: Name, job: Job,
                                        back: Option<Pod>, p0: Option<Pod>, times: set<int>, out: bool)
    requires Inv(w) && Leads(w, run, w') && Patient(run, i) && Unlock(i) !in run
    requires Working(w, i, n, job, back, p0, times, out)
    ensures Working(w', i, n, job, back, p0, times + Times(run, i), out || Deletes(run, n))
    decreases |run|
  {
    if run == [] {
      assert times + Times(run, i) == times;
    } else {
      var times' := TimesAfter(run[0], i, times);
      var out' := out || run[0] == ExternalDelete(n);
      WorkingNext(w, run[0], i, n, job, back, p0, times, out);
      RunRest(run, i);
      WorkingLasts(Apply(w, run[0]), run[1..], w', i, n, job, back, p0, times', out');
      RunSplits(run, i, n, times);
    }
  }

  function TimesAfter(act: Action, i: ActorId, times: set<int>): (r: set<int>) {
    if act.Call? && act.id == i then times + {act.choice.now} else times
  }

  lemma RunRest(run: seq<Action>, i: ActorId)
    requires run != [] && Patient(run, i) && Unlock(i) !in run
    ensures Patient(run[1..], i) && Unlock(i) !in run[1..]
  {
    assert forall k :: 0 <= k < |run[1..]| ==> run[1..][k] == run[k + 1];
  }

  lemma RunSplits(run: seq<Action>, i: ActorId, n: Name, times: set<int>)
    requires run != []
    ensures var act := run[0];
      && times + Times(run, i) == TimesAfter(act, i, times) + Times(run[1..], i)
      && (Deletes(run, n) <==> act == ExternalDelete(n) || Deletes(run[1..], n))
  {
    assert run == [run[0]] + run[1..];
    TimesMore(run[0], run[1..], i);
  }

  lemma TimesMore(act: Action, rest: seq<Action>, i: ActorId)
    ensures Times([act] + rest, i) == Times(rest, i) + if act.Call? && act.id == i then {act.choice.now} else {}
  {
    var run := [act] + rest;
    assert forall k :: 0 <= k < |rest| ==> rest[k] == run[k + 1];
    assert run[0] == act;
    forall now | now in Times(run, i)
      ensures now in Times(rest, i) || (act.Call? && act.id == i && now == act.choice.now)
    {
      var k :| 0 <= k < |run| && run[k].Call? && run[k].id == i && run[k].choice.now == now;
      if k > 0 {
        assert rest[k - 1] == run[k];
      }
    }
    forall now | now in Times(rest, i) ensures now in Times(run, i) {
      var k :| 0 <= k < |rest| && rest[k].Call? && rest[k].id == i && rest[k].choice.now == now;
      assert run[k + 1] == rest[k];
    }
  }

  lemma WorkingNext(w: World, act: Action, i: ActorId, n: Name, job: Job, back: Option<Pod>, p0: Option<Pod>,
                    times: set<int>, out: bool)
    requires Inv(w) && Enabled(w, act) && act != Unlock(i) && (act.Call? && act.id == i ==> act.choice.ok)
    requires Working(w, i, n, job, back, p0, times, out)
    ensures Inv(Apply(w, act))
    ensures Working(Apply(w, act), i, n, job, back, p0, TimesAfter(act, i, times), out || act == ExternalDelete(n))
  {
    StepKeeps(w, act);
    WorkingStep(w, act, i, n, job, back, p0, times, out);
  }

  lemma WorkingStep(w: World, act: Action, i: ActorId, n: Name, job: Job, back: Option<Pod>, p0: Option<Pod>,
                    times: set<int>, out: bool)
    requires Inv(w) && Enabled(w, act) && act != Unlock(i) && (act.Call? && act.id == i ==> act.choice.ok)
    requires Working(w, i, n, job, back, p0, times, out)
    ensures Working(Apply(w, act), i, n, job, back, p0, TimesAfter(act, i, times), out || act == ExternalDelete(n))
  {
    if act.Call? && act.id == i {
      OwnStays(w, i, act.choice, back, p0, times, out);
    } else {
      OthersTouch(w, act, i);
      MidTouched(w.actors[i], back, p0, At(w.pods, n), times, out, At(Apply(w, act).pods, n), act == ExternalDelete(n));
    }
  }

  // ---------- the theorems ----------

  /** From `w`, where actor `i` just got the lock and is at `pc`, `run` leads to `w'`, where it still holds the lock; no
      call of its own failed. Others act in between as they like. */
  ghost predicate Section(w: World, i: ActorId, pc: Pc, run: seq<Action>, w': World) {
    && Reachable(w) && i in w.actors && w.actors[i].pc == pc
    && Leads(w, run, w') && Patient(run, i) && Unlock(i) !in run
  }

  lemma SectionWorks(w: World, i: ActorId, run: seq<Action>, w': World, back: Option<Pod>)
    requires i in w.actors && Section(w, i, w.actors[i].pc, run, w') && Critical(w.actors[i].pc)
    requires Mid(w.actors[i], back, At(w.pods, w.actors[i].name), At(w.pods, w.actors[i].name), {}, false)
    ensures var a := w.actors[i];
      && i in w'.actors && w'.actors[i].job == a.job && w'.actors[i].name == a.name
      && Mid(w'.actors[i], back, At(w.pods, a.name), At(w'.pods, a.name), Times(run, i), Deletes(run, a.name))
  {
    ReachableInv(w);
    var a := w.actors[i];
    WorkingLasts(w, run, w', i, a.name, a.job, back, At(w.pods, a.name), {}, false);
    assert {} + Times(run, i) == Times(run, i);
  }

  /** Once a publisher is through, its target is stored: added to the live pod that was there, or with a new pod if
      there was none or it was going; only a deletion from outside can make it give up. */
  lemma PublishIsAtomic(w: World, i: ActorId, run: seq<Action>, w': World)
    requires Section(w, i, Poll, run, w') && w.actors[i].job.Publish?
    requires i in w'.actors && w'.actors[i].pc.Release?
    ensures var n, job := w.actors[i].name, w.actors[i].job;
      Published(job.target, job.base, At(w.pods, n), At(w'.pods, n), Deletes(run, n))
  {
    SectionWorks(w, i, run, w', None);
  }

  /** Once an unpublisher is through, the pod is as after one removal and one retirement. */
  lemma UnpublishIsAtomic(w: World, i: ActorId, run: seq<Action>, w': World)
    requires Section(w, i, FindPod, run, w') && w.actors[i].job.Unpublish?
    requires i in w'.actors && w'.actors[i].pc.Release?
    ensures var n, t := w.actors[i].name, w.actors[i].job.target;
      if n !in w.pods then n !in w'.pods else Unpublished(t, w.pods[n], At(w'.pods, n), Times(run, i), Deletes(run, n))
  {
    SectionWorks(w, i, run, w', None);
  }

  /** Once `checkAnnotations` is through, the pod is as after one call of it on the run's snapshot, and the run goes on
      exactly when that call succeeds. */
  lemma CheckIsAtomic(w: World, i: ActorId, run: seq<Action>, w': World)
    requires Section(w, i, Inspect, run, w') && w.actors[i].job.Reconcile?
    requires i in w'.actors && (w'.actors[i].pc.Release? || w'.actors[i].pc.ReleaseToHandle?)
    ensures var n, job := w.actors[i].name, w.actors[i].job;
      if n !in w.pods then n !in w'.pods
      else CheckedAt(job, w.pods[n], At(w'.pods, n), w'.actors[i].pc.ReleaseToHandle?, Times(run, i), Deletes(run, n))
  {
    SectionWorks(w, i, run, w', None);
  }

  /** Once a handler is through, the fetched references are merged into the live pod that was there, or the pod is
      created again with all annotations that were fetched. */
  lemma BringingBackIsAtomic(w: World, i: ActorId, f: Pod, run: seq<Action>, w': World)
    requires Section(w, i, PollGone(f), run, w')
    requires i in w'.actors && w'.actors[i].pc.Release?
    ensures var n := w.actors[i].name; BroughtBack(f, At(w.pods, n), At(w'.pods, n), Deletes(run, n))
  {
    ReachableActor(w, i);
    SectionWorks(w, i, run, w', Some(f));
  }

  // ---------- the same, stated on the annotations ----------

  /** What an unpublisher leaves of pod `p0`, if the pod is still there; `now` is a time of one of its calls. */
  ghost predicate Left(t: Target, p0: Pod, p: Pod, now: int, out: bool) {
    var over := Refs(p.annotations) == {} && DelayOver(p0.annotations, now);
    var a := p0.annotations - {RefKey(t)};
    && p.uid == p0.uid && Refs(p.annotations) == Refs(p0.annotations) - {t}
    && (p0.terminating || over ==> p.terminating)
    && (p.terminating ==> p0.terminating || over || out)
    && (if Refs(p.annotations) == {} && StampsFirst(p0.annotations)
        then exists sec :: CutOff(sec, now + a[DelayTimeKey].ns) && Agree(p.annotations, a[DeleteAtKey := Stamp(sec)])
        else Agree(p.annotations, a))
  }

  /** The pod may have gone when it was terminating. */
  ghost predicate LeftOf(t: Target, p0: Pod, p: Option<Pod>, now: int, out: bool) {
    if p.Some? then Left(t, p0, p.value, now, out)
    else p0.terminating || out || (Refs(p0.annotations) <= {t} && DelayOver(p0.annotations, now))
  }

  /** An unpublisher takes its own reference off the pod and no other. It deletes the pod exactly when no reference is
      left and no delay is set, the delay or the stamp cannot be decoded, or the stamp is not in the future; it stamps
      it exactly when none is left, a delay is set and there is no stamp; nothing else changes. */
  lemma UnpublishDoes(w: World, i: ActorId, run: seq<Action>, w': World)
    requires Section(w, i, FindPod, run, w') && w.actors[i].job.Unpublish?
    requires i in w'.actors && w'.actors[i].pc.Release?
    ensures var n, t := w.actors[i].name, w.actors[i].job.target;
      && (n in w'.pods ==> n in w.pods)
      && (n in w.pods ==>
            exists now :: now in Times(run, i) && LeftOf(t, w.pods[n], At(w'.pods, n), now, Deletes(run, n)))
  {
    UnpublishIsAtomic(w, i, run, w');
    var n, t := w.actors[i].name, w.actors[i].job.target;
    if n in w.pods {
      var now :| now in Times(run, i) && Holds(At(w'.pods, n), Retire(Dropped(w.pods[n], t), now), Deletes(run, n));
      RetiredIs(w.pods[n], At(w'.pods, n), t, now, Deletes(run, n));
    }
  }

  lemma RetiredIs(p0: Pod, p: Option<Pod>, t: Target, now: int, out: bool)
    requires Holds(p, Retire(Dropped(p0, t), now), out)
    ensures LeftOf(t, p0, p, now, out)
  {
    var q := Dropped(p0, t);
    DropEffect(p0.annotations, t);
    RetireEffect(q, now);
    NoneLeft(Refs(p0.annotations), {t});
    if p.Some? {
      AgreeFacts(p.value.annotations, Retire(q, now).annotations);
      if StampsFirst(p0.annotations) && Refs(q.annotations) == {} {
        var sec :| Retire(q, now).annotations == q.annotations[DeleteAtKey := Stamp(sec)] &&
          CutOff(sec, now + p0.annotations[DelayTimeKey].ns);
        assert Agree(p.value.annotations, (p0.annotations - {RefKey(t)})[DeleteAtKey := Stamp(sec)]);
        assert Refs(q.annotations[DeleteAtKey := Stamp(sec)]) == Refs(WithStamp(q.annotations, sec));
      }
    }
  }

  /** What a publisher leaves that nobody deletes the pod of. */
  ghost predicate Added(t: Target, base: Annotations, p0: Option<Pod>, p: Pod) {
    && !p.terminating
    && if Alive(p0) then
         && p.uid == p0.value.uid && Refs(p.annotations) == Refs(p0.value.annotations) + {t}
         && (t !in Refs(p0.value.annotations) ==> DeleteAtKey !in p.annotations)
         && Agree(p.annotations - {RefKey(t), DeleteAtKey}, p0.value.annotations - {RefKey(t), DeleteAtKey})
       else Refs(p.annotations) == Refs(base) + {t} && Agree(p.annotations - {RefKey(t)}, base - {RefKey(t)})
  }

  /** Unless the pod is deleted from outside, a publisher gets its reference stored on a live pod: beside the references
      that the live pod had, without the stamp, and with all other annotations; or on a new pod. */
  lemma PublishDoes(w: World, i: ActorId, run: seq<Action>, w': World)
    requires Section(w, i, Poll, run, w') && w.actors[i].job.Publish?
    requires i in w'.actors && w'.actors[i].pc.Release? && !Deletes(run, w.actors[i].name)
    ensures var n, job := w.actors[i].name, w.actors[i].job;
      n in w'.pods && Added(job.target, job.base, At(w.pods, n), w'.pods[n])
  {
    PublishIsAtomic(w, i, run, w');
    var n, t, base := w.actors[i].name, w.actors[i].job.target, w.actors[i].job.base;
    ReachableActor(w, i);
    AddedIs(t, base, At(w.pods, n), At(w'.pods, n));
  }

  lemma AddedIs(t: Target, base: Annotations, p0: Option<Pod>, p: Option<Pod>)
    requires Published(t, base, p0, p, false) && (p0.Some? ==> WellFormed(p0.value.annotations)) && WellFormed(base)
    ensures p.Some? && Added(t, base, p0, p.value)
  {
    if Alive(p0) {
      AddEffect(p0.value.annotations, t);
      AgreeFacts(p.value.annotations, AddRef(p0.value.annotations, t));
    } else {
      var made := base[RefKey(t) := Text(t)];
      AgreeFacts(p.value.annotations, made);
      forall u ensures HasRef(made, u) <==> HasRef(base, u) || u == t {
      }
    }
  }

  /** What a check leaves of the pod: the references that are not dead in its snapshot, unless the prune is refused; it
      deletes the pod exactly when the prune is not refused, the snapshot shows no live reference and a delay that is
      over, and no reference is left; the delay setting stays. */
  ghost predicate CheckLeaves(job: Job, p0: Pod, p: Pod, now: int, out: bool)
    requires job.Reconcile?
  {
    var snapshot, pruned := job.current.annotations, PruneStored(job.current, p0, job.live).Some?;
    var over := pruned && AsksToRetire(job) && DelayOver(snapshot, now) && Refs(p.annotations) == {};
    && p.uid == p0.uid
    && Refs(p.annotations) == Refs(p0.annotations) - (if pruned then DeadRefs(snapshot, job.live) else {})
    && (p0.terminating || over ==> p.terminating)
    && (p.terminating ==> p0.terminating || over || out)
    && CheckedStamp(job.current, p0, p, job.live, now) && SameAt(DelayTimeKey, p0.annotations, p.annotations)
  }

  lemma CheckDoes(w: World, i: ActorId, run: seq<Action>, w': World)
    requires Section(w, i, Inspect, run, w') && w.actors[i].job.Reconcile?
    requires i in w'.actors && (w'.actors[i].pc.Release? || w'.actors[i].pc.ReleaseToHandle?)
    requires w.actors[i].name in w.pods && w.actors[i].name in w'.pods
    ensures var n, job := w.actors[i].name, w.actors[i].job;
      exists now :: now in Times(run, i) && CheckLeaves(job, w.pods[n], w'.pods[n], now, Deletes(run, n))
  {
    CheckIsAtomic(w, i, run, w');
    var n, job := w.actors[i].name, w.actors[i].job;
    var now :| now in Times(run, i) &&
      Checked(job, w.pods[n], At(w'.pods, n), w'.actors[i].pc.ReleaseToHandle?, now, Deletes(run, n));
    CheckLeavesIt(job, w.pods[n], w'.pods[n], now, Deletes(run, n));
  }

  lemma CheckLeavesIt(job: Job, p0: Pod, p: Pod, now: int, out: bool)
    requires job.Reconcile? && Holds(Some(p), CheckAnnotations(job.current, p0, job.live, now), out)
    ensures CheckLeaves(job, p0, p, now, out)
  {
    var q := CheckAnnotations(job.current, p0, job.live, now);
    AgreeFacts(p.annotations, q.annotations);
    CheckDeletes(job.current, p0, job.live, now);
    CheckKeeps(job.current, p0, job.live, now);
    NoneLeft(Refs(p0.annotations), DeadRefs(job.current.annotations, job.live));
    CheckStampAgrees(job, p0, p, q, now);
    assert SameAt(DelayTimeKey, p0.annotations, q.annotations) && SameAt(DelayTimeKey, p.annotations, q.annotations);
  }

  lemma CheckStampAgrees(job: Job, p0: Pod, p: Pod, q: Pod, now: int)
    requires job.Reconcile? && q == CheckAnnotations(job.current, p0, job.live, now)
    requires Agree(p.annotations, q.annotations)
    ensures CheckedStamp(job.current, p0, p, job.live, now)
  {
    CheckStamps(job.current, p0, job.live, now);
    SameStamp(job.current, p0, p, q, job.live, now);
  }

  lemma SameStamp(current: Pod, p0: Pod, p: Pod, q: Pod, live: set<string>, now: int)
    requires Agree(p.annotations, q.annotations) && CheckedStamp(current, p0, q, live, now)
    ensures CheckedStamp(current, p0, p, live, now)
  {
    assert SameAt(DeleteAtKey, p.annotations, q.annotations);
  }
}
