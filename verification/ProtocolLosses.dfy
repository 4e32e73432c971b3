/** Exactly which runs of the reconciler can lose a reference when they bring a pod back. */
module ProtocolLosses {
  import opened MountPod
  import opened Wrappers
  import opened Protocol
  import opened ProtocolInvariant
  import opened ProtocolSafety
  import opened ProtocolRecreate
  import opened ProtocolStages
  import opened ProtocolTheorems

  const OK := Choice(true, false, 0)

  function Snapshot(k: Cast): (a: Annotations)
    requires k.job.Reconcile?
  {
    k.job.current.annotations
  }

  // ---------- the check ends and the run goes on to its handler ----------

  /** What the check leaves of the annotations it saw, before it looks at the delay. */
  function Pruned(k: Cast): (a: Annotations)
    requires k.job.Reconcile?
  {
    Snapshot(k) - PruneKeys(Snapshot(k), k.job.live)
  }

  lemma KeysOfSnapshot(k: Cast)
    requires k.job.Reconcile? && WellFormed(Snapshot(k))
    ensures PruneKeys(Snapshot(k), k.job.live) <= Snapshot(k).Keys
    ensures Refs(Pruned(k)) == LiveRefs(Snapshot(k), k.job.live)
    ensures forall key :: key in Pruned(k) ==> key in Snapshot(k)
  {
    PruneEffect(Snapshot(k), Snapshot(k), k.job.live);
  }

  lemma PrunesKeys(k: Cast, s: Stage)
    requires Reached(k, s) && k.job.Reconcile? && s.run == Compare && s.pod.Some?
    requires s.pod.value.annotations == Snapshot(k) && WellFormed(Snapshot(k))
    ensures Reached(k, s.(pod := Some(s.pod.value.(annotations := Pruned(k))), run := Idle))
  {
    KeysOfSnapshot(k);
    CheckCalls(k, s, OK, s.pod, Prune);
    PatchesKeys(k, s.(run := Prune));
  }

  lemma PatchesKeys(k: Cast, s: Stage)
    requires Reached(k, s) && k.job.Reconcile? && s.run == Prune && s.pod.Some?
    requires s.pod.value.annotations == Snapshot(k) && PruneKeys(Snapshot(k), k.job.live) <= Snapshot(k).Keys
    ensures Reached(k, s.(pod := Some(s.pod.value.(annotations := Pruned(k))), run := Idle))
  {
    CheckCalls(k, s, OK, Some(s.pod.value.(annotations := Pruned(k))), Idle);
  }

  /** The stored pod has the annotations of the snapshot; the check prunes it. */
  lemma PrunesSnapshot(k: Cast, s: Stage)
    requires Reached(k, s) && k.job.Reconcile? && s.run == Inspect && s.pod.Some?
    requires s.pod.value.annotations == Snapshot(k) && WellFormed(Snapshot(k))
    ensures Reached(k, s.(pod := Some(s.pod.value.(annotations := Pruned(k))), run := Idle))
  {
    if PruneKeys(Snapshot(k), k.job.live) == {} {
      assert Pruned(k) == Snapshot(k);
      CheckCalls(k, s, OK, s.pod, Idle);
    } else {
      CheckCalls(k, s, OK, s.pod, Compare);
      PrunesKeys(k, s.(run := Compare));
    }
  }

  /** The pod after the rest of the check. */
  function Retired(k: Cast, p: Pod, now: int): (r: Pod)
    requires k.job.Reconcile?
  {
    if LiveRefs(Snapshot(k), k.job.live) != {} || k.job.current.terminating then p
    else match ShouldDelay(Snapshot(k), now)
      case Wait => p
      case AddStamp(sec) => p.(annotations := WithStamp(p.annotations, sec))
      case DeleteNow => p.(terminating := true)
  }

  lemma DeletesPod(k: Cast, s: Stage)
    requires Reached(k, s) && k.job.Reconcile? && s.run == Recount && s.pod.Some?
    requires Refs(s.pod.value.annotations) == {}
    ensures Reached(k, s.(pod := Some(s.pod.value.(terminating := true)), run := ReleaseToHandle))
  {
    CheckCalls(k, s, OK, s.pod, Delete);
    CheckCalls(k, s.(run := Delete), OK, Some(s.pod.value.(terminating := true)), ReleaseToHandle);
  }

  lemma RetiresSnapshot(k: Cast, s: Stage, now: int)
    requires Reached(k, s) && k.job.Reconcile? && s.run == Idle && s.pod.Some?
    requires Refs(s.pod.value.annotations) == LiveRefs(Snapshot(k), k.job.live)
    ensures Reached(k, s.(pod := Some(Retired(k, s.pod.value, now)), run := ReleaseToHandle))
  {
    var p, c := s.pod.value, Choice(true, false, now);
    if LiveRefs(Snapshot(k), k.job.live) != {} || k.job.current.terminating || ShouldDelay(Snapshot(k), now).Wait? {
      CheckCalls(k, s, c, s.pod, ReleaseToHandle);
    } else if ShouldDelay(Snapshot(k), now).DeleteNow? {
      CheckCalls(k, s, c, s.pod, Recount);
      DeletesPod(k, s.(run := Recount));
    } else {
      var sec := ShouldDelay(Snapshot(k), now).sec;
      CheckCalls(k, s, c, s.pod, Postpone(sec));
      StampsPod(k, s.(run := Postpone(sec)), sec);
    }
  }

  lemma StampsPod(k: Cast, s: Stage, sec: int)
    requires Reached(k, s) && k.job.Reconcile? && s.run == Postpone(sec) && s.pod.Some?
    ensures Reached(k, s.(
      pod := Some(s.pod.value.(annotations := WithStamp(s.pod.value.annotations, sec))), run := ReleaseToHandle))
  {
    CheckCalls(k, s, OK, Some(s.pod.value.(annotations := WithStamp(s.pod.value.annotations, sec))), ReleaseToHandle);
  }

  /** From a node with one pod like the snapshot to the handler. */
  lemma GetsToHandler(k: Cast, p: Pod, now: int)
    requires k.job.Reconcile? && (k.job.current.terminating || k.job.errored) && WellFormed(Snapshot(k))
    requires p.annotations == Snapshot(k) && p.uid == k.job.current.uid && (p.finalizer || p.terminating)
    requires k.job.current.terminating ==> p.terminating
    ensures var r := Retired(k, p.(annotations := Pruned(k)), now);
      Reached(k, Stage(Some(r), p.uid + 1, None, Fetch, None, None, map[]))
  {
    var s := Stage(Some(p), p.uid + 1, None, WaitLock, None, None, map[]);
    Starts(k, p, p.uid + 1);
    Locks(k, s, 0);
    PrunesSnapshot(k, s.(holder := Some(0), run := Inspect));
    KeysOfSnapshot(k);
    var pruned := p.(annotations := Pruned(k));
    RetiresSnapshot(k, s.(holder := Some(0), run := Idle, pod := Some(pruned)), now);
    Unlocks(k, s.(holder := Some(0), run := ReleaseToHandle, pod := Some(Retired(k, pruned, now))), 0);
  }

  // ---------- the publishers ----------

  function TargetOf(k: Cast, who: ActorId): (t: Target)
    requires 1 <= who <= 2
  {
    if who == 1 then k.first else k.late
  }

  /** A publisher comes and locks. */
  lemma PublisherEnters(k: Cast, s: Stage, who: ActorId)
    requires 1 <= who <= 2 && JobOf(k, who).Publish?
    requires Reached(k, s) && !Present(s, who) && s.holder.None?
    ensures Reached(k, WithPc(s.(holder := Some(who)), who, Poll))
  {
    Comes(k, s, who);
    Locks(k, WithPc(s, who, WaitLock), who);
  }

  /** A publisher reads the live pod and is about to patch it. */
  lemma PublisherReads(k: Cast, s: Stage, who: ActorId)
    requires 1 <= who <= 2 && JobOf(k, who).Publish?
    requires Reached(k, s) && !Present(s, who) && s.holder.None?
    requires s.pod.Some? && !s.pod.value.terminating && RefKey(TargetOf(k, who)) !in s.pod.value.annotations
    ensures Reached(k, WithPc(s.(holder := Some(who)), who, AddPatch(s.pod.value)))
  {
    var h := s.(holder := Some(who));
    PublisherEnters(k, s, who);
    PublisherCalls(k, WithPc(h, who, Poll), who, OK, s.pod, AddGet);
    PublisherCalls(k, WithPc(h, who, AddGet), who, OK, s.pod, AddPatch(s.pod.value));
  }

  /** Its patch replaces the annotations, also when the pod has been deleted meanwhile. */
  lemma PublisherPatches(k: Cast, s: Stage, who: ActorId, seen: Pod)
    requires 1 <= who <= 2 && JobOf(k, who).Publish?
    requires Reached(k, s) && Present(s, who) && PcOf(s, who) == AddPatch(seen)
    requires s.pod.Some? && s.holder.Some?
    ensures var q := s.pod.value.(annotations := WithRef(seen.annotations, TargetOf(k, who)));
      Reached(k, WithPc(s.(pod := Some(q), holder := None), who, Done))
  {
    var q := s.pod.value.(annotations := WithRef(seen.annotations, TargetOf(k, who)));
    PublisherCalls(k, s, who, OK, Some(q), Release);
    Unlocks(k, WithPc(s.(pod := Some(q)), who, Release), who);
  }

  /** The first publisher adds its target to the live pod. */
  lemma FirstAdds(k: Cast, s: Stage)
    requires Reached(k, s) && s.holder.None? && s.first.None? && s.pod.Some? && !s.pod.value.terminating
    requires RefKey(k.first) !in s.pod.value.annotations
    ensures Reached(k, s.(
      pod := Some(s.pod.value.(annotations := WithRef(s.pod.value.annotations, k.first))), first := Some(Done)))
  {
    PublisherReads(k, s, 1);
    PublisherPatches(k, WithPc(s.(holder := Some(1)), 1, AddPatch(s.pod.value)), 1, s.pod.value);
    assert s.(holder := None) == s;
  }

  function MadeBy(k: Cast, who: ActorId, uid: nat): (p: Pod)
    requires 1 <= who <= 2
  {
    Pod(uid, false, true, BaseOf(k)[RefKey(TargetOf(k, who)) := Text(TargetOf(k, who))])
  }

  function Made(k: Cast, uid: nat): (p: Pod) {
    MadeBy(k, 1, uid)
  }

  lemma PublisherFindsNone(k: Cast, s: Stage, who: ActorId)
    requires 1 <= who <= 2 && JobOf(k, who).Publish?
    requires Reached(k, s) && !Present(s, who) && s.holder.None? && s.pod.None?
    ensures Reached(k, WithPc(s.(holder := Some(who)), who, Create))
  {
    PublisherEnters(k, s, who);
    PublisherCalls(k, WithPc(s.(holder := Some(who)), who, Poll), who, OK, None, Create);
  }

  /** The stage in which the publisher has stored its pod. */
  function Stored(k: Cast, s: Stage, who: ActorId): (r: Stage)
    requires 1 <= who <= 2
  {
    s.(pod := Some(MadeBy(k, who, s.next)), next := s.next + 1)
  }

  /** Without a pod, a publisher creates one. */
  lemma PublisherCreates(k: Cast, s: Stage, who: ActorId)
    requires 1 <= who <= 2 && JobOf(k, who).Publish?
    requires Reached(k, s) && !Present(s, who) && s.holder.None? && s.pod.None?
    ensures Reached(k, WithPc(Stored(k, s, who), who, Done))
  {
    PublisherFindsNone(k, s, who);
    PublisherStoresAt(k, s, WithPc(s.(holder := Some(who)), who, Create), who);
  }

  lemma PublisherStoresAt(k: Cast, s: Stage, creating: Stage, who: ActorId)
    requires 1 <= who <= 2 && JobOf(k, who).Publish? && s.holder.None? && s.pod.None?
    requires creating == WithPc(s.(holder := Some(who)), who, Create) && Reached(k, creating)
    ensures Reached(k, WithPc(Stored(k, s, who), who, Done))
  {
    PublisherStores(k, creating, who);
    SameStage(k, s, creating, who);
  }

  lemma SameStage(k: Cast, s: Stage, creating: Stage, who: ActorId)
    requires 1 <= who <= 2 && s.holder.None? && creating == WithPc(s.(holder := Some(who)), who, Create)
    ensures WithPc(Stored(k, creating, who).(holder := None), who, Done) == WithPc(Stored(k, s, who), who, Done)
  {
  }

  lemma PublisherStores(k: Cast, s: Stage, who: ActorId)
    requires 1 <= who <= 2 && JobOf(k, who).Publish?
    requires Reached(k, s) && Present(s, who) && PcOf(s, who) == Create && s.holder.Some? && s.pod.None?
    ensures Reached(k, WithPc(Stored(k, s, who).(holder := None), who, Done))
  {
    PublisherCalls(k, s, who, OK, Stored(k, s, who).pod, Release);
    Unlocks(k, WithPc(Stored(k, s, who), who, Release), who);
  }

  // ---------- the handler ----------

  /** The late publisher reads the live pod; then the pod is deleted from outside, and the run fetches it. */
  lemma FetchedWhilePending(k: Cast, s: Stage)
    requires !k.leaves
    requires Reached(k, s) && k.job.Reconcile? && s.run == Fetch && s.holder.None? && s.late.None?
    requires s.pod.Some? && !s.pod.value.terminating && s.pod.value.finalizer
    requires RefKey(k.late) !in s.pod.value.annotations
    ensures var f := s.pod.value.(terminating := true);
      Reached(k, s.(pod := Some(f), holder := Some(2), run := Unfinalize(f), late := Some(AddPatch(s.pod.value))))
  {
    var f := s.pod.value.(terminating := true);
    var h := s.(holder := Some(2), late := Some(AddPatch(s.pod.value)));
    PublisherReads(k, s, 2);
    IsDeleted(k, h);
    HandlerCalls(k, h.(pod := Some(f)), OK, Some(f), Unfinalize(f));
  }

  /** The handler takes the finalizer off, and the pod goes. */
  lemma HandlerLetsItGo(k: Cast, s: Stage, f: Pod, p: Pod)
    requires Reached(k, s) && k.job.Reconcile? && s.run == Unfinalize(f) && Refs(f.annotations) != {}
    requires s.pod == Some(p) && p.terminating
    ensures Reached(k, s.(pod := None, run := WaitLockAgain(f), gone := s.gone[(k.name, p.uid) := Refs(p.annotations)]))
  {
    var q := p.(finalizer := false);
    HandlerCalls(k, s, OK, Some(q), WaitLockAgain(f));
    Vanishes(k, s.(pod := Some(q), run := WaitLockAgain(f)));
  }

  /** The handler is about to create the pod anew. */
  lemma HandlerFindsItGone(k: Cast, s: Stage, f: Pod)
    requires Reached(k, s) && k.job.Reconcile? && s.run == WaitLockAgain(f) && s.pod.None? && s.holder.None?
    ensures Reached(k, s.(holder := Some(0), run := Recreate(f)))
  {
    Locks(k, s, 0);
    HandlerCalls(k, s.(holder := Some(0), run := PollGone(f)), OK, None, Recreate(f));
  }

  // ---------- losses ----------

  /** A run with this job brings its pod back without all references that the fetched incarnation had at its end. */
  ghost predicate Loses(w: World, i: ActorId, c: Choice, n: Name, job: Job) {
    && Reachable(w) && BringsBack(w, i, c)
    && w.actors[i].name == n && w.actors[i].job == job
    && (n, w.actors[i].pc.fetched.uid) in w.vanished
    && !(w.vanished[(n, w.actors[i].pc.fetched.uid)] <= RefsOf(At(Apply(w, Call(i, c)).pods, n)))
  }

  function Bereft(s: Stage, k: Cast, p: Pod): (r: Stage) {
    s.(pod := None, holder := Some(0), run := Recreate(p.(terminating := true)), late := Some(Done),
       gone := s.gone[(k.name, p.uid) := Refs(p.annotations) + {k.late}])
  }

  lemma ReachesLoss(k: Cast, s: Stage)
    requires !k.leaves
    requires Reached(k, s) && k.job.Reconcile? && s.run == Fetch && s.holder.None? && s.late.None?
    requires s.pod.Some? && !s.pod.value.terminating && s.pod.value.finalizer
    requires RefKey(k.late) !in s.pod.value.annotations && Refs(s.pod.value.annotations) != {}
    ensures Reached(k, Bereft(s, k, s.pod.value))
  {
    var p := s.pod.value;
    var f, both := p.(terminating := true), p.(terminating := true, annotations := WithRef(p.annotations, k.late));
    FetchedWhilePending(k, s);
    PublisherPatches(k, s.(pod := Some(f), holder := Some(2), run := Unfinalize(f), late := Some(AddPatch(p))), 2, p);
    HandlerLetsItGo(k, s.(pod := Some(both), holder := None, run := Unfinalize(f), late := Some(Done)), f, both);
    HandlerFindsItGone(k, Bereft(s, k, p).(holder := None, run := WaitLockAgain(f)), f);
  }

  /** From the fetch of a live pod with references on, a publication to it can get lost. */
  lemma LateIsLost(k: Cast, s: Stage) returns (w: World)
    requires !k.leaves
    requires Reached(k, s) && k.job.Reconcile? && s.run == Fetch && s.holder.None? && s.late.None?
    requires s.pod.Some? && !s.pod.value.terminating && s.pod.value.finalizer
    requires RefKey(k.late) !in s.pod.value.annotations && Refs(s.pod.value.annotations) != {}
    ensures Loses(w, 0, OK, k.name, k.job) && w.actors[0].pc == Recreate(s.pod.value.(terminating := true))
    ensures 2 in w.actors && w.actors[2] == Actor(k.name, Publish(k.late, BaseOf(k)), Done)
    ensures k.late in w.vanished[(k.name, s.pod.value.uid)]
  {
    var p, s' := s.pod.value, Bereft(s, k, s.pod.value);
    ReachesLoss(k, s);
    Arrives(k, s');
    w := WorldAt(k, s');
    assert w.actors[0] == Person(k, s', 0) && w.actors[2] == Person(k, s', 2);
    RecreateKeepsFetched(w, 0, OK);
    assert HasRef(p.annotations, k.late) <==> k.late in Refs(p.annotations);
    assert RefsOf(At(w.pods, k.name)) == {};
  }

  // ---------- the incarnation of the snapshot ----------

  lemma RetiredIs(k: Cast, p: Pod, now: int)
    requires k.job.Reconcile?
    ensures var r := Retired(k, p, now);
      && r.uid == p.uid && r.finalizer == p.finalizer
      && (p.terminating ==> r.terminating)
      && (LiveRefs(Snapshot(k), k.job.live) != {} || ShouldDelay(Snapshot(k), now) != DeleteNow ==>
           r.terminating == p.terminating)
      && (forall t :: RefKey(t) in r.annotations <==> RefKey(t) in p.annotations)
  {
  }

  /** A node with the pod that the snapshot shows, alive; the check spares it, and a first publisher adds to it. */
  lemma FirstAddsToSnapshot(k: Cast, now: int) returns (s: Stage)
    requires k.job.Reconcile? && WellFormed(Snapshot(k)) && k.job.errored && !k.job.current.terminating
    requires LiveRefs(Snapshot(k), k.job.live) != {} || ShouldDelay(Snapshot(k), now) != DeleteNow
    requires k.first != k.late && RefKey(k.first) !in Snapshot(k) && RefKey(k.late) !in Snapshot(k)
    ensures Reached(k, s) && s.run == Fetch && s.holder.None? && s.late.None?
    ensures s.pod.Some? && !s.pod.value.terminating && s.pod.value.finalizer && s.pod.value.uid == k.job.current.uid
    ensures RefKey(k.late) !in s.pod.value.annotations && Refs(s.pod.value.annotations) != {}
  {
    var uid := k.job.current.uid;
    var p := Pod(uid, false, true, Snapshot(k));
    var pruned := p.(annotations := Pruned(k));
    var r := Retired(k, pruned, now);
    GetsToHandler(k, p, now);
    RetiredIs(k, pruned, now);
    FirstAdds(k, Stage(Some(r), uid + 1, None, Fetch, None, None, map[]));
    var q := r.(annotations := WithRef(r.annotations, k.first));
    assert k.first in Refs(q.annotations);
    s := Stage(Some(q), uid + 1, None, Fetch, Some(Done), None, map[]);
  }

  /** A publication to the incarnation that the run was given gets lost: actor 2 published `late` with success, the
      incarnation ended with that reference, and the handler brings the pod back without it. */
  lemma RecreateCanLose(k: Cast) returns (w: World)
    requires !k.leaves
    requires k.job.Reconcile? && WellFormed(Snapshot(k))
    requires k.job.errored && !k.job.current.terminating && !MustDelete(k.job)
    requires k.first != k.late && RefKey(k.first) !in Snapshot(k) && RefKey(k.late) !in Snapshot(k)
    ensures Loses(w, 0, OK, k.name, k.job) && w.actors[0].pc.fetched.uid == k.job.current.uid
    ensures 2 in w.actors && w.actors[2] == Actor(k.name, Publish(k.late, BaseOf(k)), Done)
    ensures k.late in w.vanished[(k.name, k.job.current.uid)]
  {
    NeverDelaysIff(Snapshot(k));
    var now :| LiveRefs(Snapshot(k), k.job.live) != {} || ShouldDelay(Snapshot(k), now) != DeleteNow;
    var s := FirstAddsToSnapshot(k, now);
    w := LateIsLost(k, s);
  }

  // ---------- a later incarnation ----------

  /** The incarnation of the snapshot is already on its way; it goes while the run gets to its handler. */
  lemma SnapshotGoes(k: Cast) returns (refs: set<Target>)
    requires k.job.Reconcile? && WellFormed(Snapshot(k)) && (k.job.errored || k.job.current.terminating)
    ensures var uid := k.job.current.uid;
      Reached(k, Stage(None, uid + 1, None, Fetch, None, None, map[(k.name, uid) := refs]))
  {
    var uid := k.job.current.uid;
    var p := Pod(uid, true, false, Snapshot(k));
    var r := Retired(k, p.(annotations := Pruned(k)), 0);
    GetsToHandler(k, p, 0);
    RetiredIs(k, p.(annotations := Pruned(k)), 0);
    refs := Refs(r.annotations);
    assert map[][(k.name, uid) := refs] == map[(k.name, uid) := refs];
    Vanishes(k, Stage(Some(r), uid + 1, None, Fetch, None, None, map[]));
  }

  /** The next incarnation is created and published to. */
  lemma FirstCreatesNext(k: Cast) returns (s: Stage)
    requires k.job.Reconcile? && WellFormed(Snapshot(k)) && (k.job.errored || k.job.current.terminating)
    ensures Reached(k, s) && s.run == Fetch && s.holder.None? && s.late.None?
    ensures s.pod == Some(Made(k, k.job.current.uid + 1)) && s.first == Some(Done)
  {
    var uid := k.job.current.uid;
    var refs := SnapshotGoes(k);
    PublisherCreates(k, Stage(None, uid + 1, None, Fetch, None, None, map[(k.name, uid) := refs]), 1);
    s := Stage(Some(Made(k, uid + 1)), uid + 2, None, Fetch, Some(Done), None, map[(k.name, uid) := refs]);
  }

  /** A publication to a later incarnation gets lost, also when the run was given its pod deleted. */
  lemma RecreateCanLoseNext(k: Cast) returns (w: World)
    requires !k.leaves
    requires k.job.Reconcile? && WellFormed(Snapshot(k)) && (k.job.errored || k.job.current.terminating)
    requires k.first != k.late
    ensures Loses(w, 0, OK, k.name, k.job) && w.actors[0].pc.fetched.uid == k.job.current.uid + 1
    ensures 2 in w.actors && w.actors[2] == Actor(k.name, Publish(k.late, BaseOf(k)), Done)
    ensures k.late in w.vanished[(k.name, k.job.current.uid + 1)]
  {
    var s := FirstCreatesNext(k);
    assert HasRef(s.pod.value.annotations, k.first);
    assert k.first in Refs(s.pod.value.annotations);
    w := LateIsLost(k, s);
  }

  // ---------- exactly when ----------

  lemma LossNeeds(w: World, i: ActorId, c: Choice, n: Name, job: Job)
    requires Loses(w, i, c, n, job)
    ensures job.Reconcile? && WellFormed(job.current.annotations) && (job.errored || job.current.terminating)
    ensures w.actors[i].pc.fetched.uid == job.current.uid ==> !DeletesFirst(job)
  {
    ReachableActor(w, i);
    if EnteredDeleted(job, w.actors[i].pc.fetched) {
      RecreateLosesNothing(w, i, c);
      assert false;
    }
  }

  lemma LongTargetsFree(keys: set<Key>) returns (m: nat)
    ensures forall t :: |t| >= m ==> RefKey(t) !in keys
  {
    if keys == {} {
      m := 0;
    } else {
      var key :| key in keys;
      var rest := LongTargetsFree(keys - {key});
      m := if key.RefKey? && |key.target| >= rest then |key.target| + 1 else rest;
      forall t | |t| >= m ensures RefKey(t) !in keys {
        assert RefKey(t) !in keys - {key};
      }
    }
  }

  lemma FreeTargets(a: Annotations) returns (t: Target, u: Target)
    ensures t != u && RefKey(t) !in a && RefKey(u) !in a
  {
    var m := LongTargetsFree(a.Keys);
    t, u := seq(m, _ => 'a'), seq(m + 1, _ => 'a');
    assert |t| == m && |u| == m + 1;
  }

  ghost predicate CanLose(n: Name, job: Job, own: bool) {
    exists w, i, c :: Loses(w, i, c, n, job) && (w.actors[i].pc.fetched.uid == job.current.uid <==> own)
  }

  /** For every job: a run can lose a publication to the incarnation it was given exactly when that was given in error,
      still alive, and its check has a way to the handler other than deleting it. */
  lemma OwnLossIff(n: Name, job: Job)
    requires job.Reconcile?
    ensures CanLose(n, job, true) <==>
      WellFormed(job.current.annotations) && job.errored && !job.current.terminating && !MustDelete(job)
  {
    if CanLose(n, job, true) {
      var w, i, c :| Loses(w, i, c, n, job) && w.actors[i].pc.fetched.uid == job.current.uid;
      LossNeeds(w, i, c, n, job);
    }
    if WellFormed(job.current.annotations) && job.errored && !job.current.terminating && !MustDelete(job) {
      var t, u := FreeTargets(job.current.annotations);
      var w := RecreateCanLose(Cast(n, job, t, u, None, false));
      assert Loses(w, 0, OK, n, job) && w.actors[0].pc.fetched.uid == job.current.uid;
    }
  }

  /** For every job: a run can lose a publication to another incarnation exactly when it can get to its handler. */
  lemma LaterLossIff(n: Name, job: Job)
    requires job.Reconcile?
    ensures CanLose(n, job, false) <==>
      WellFormed(job.current.annotations) && (job.errored || job.current.terminating)
  {
    if CanLose(n, job, false) {
      var w, i, c :| Loses(w, i, c, n, job) && w.actors[i].pc.fetched.uid != job.current.uid;
      LossNeeds(w, i, c, n, job);
    }
    if WellFormed(job.current.annotations) && (job.errored || job.current.terminating) {
      var t, u := FreeTargets(map[]);
      var w := RecreateCanLoseNext(Cast(n, job, t, u, None, false));
      assert Loses(w, 0, OK, n, job) && w.actors[0].pc.fetched.uid != job.current.uid;
    }
  }
}
