/** Waiting under the lock for a pod to go: exactly when that can end without a failed call. */
module ProtocolStalls {
  import opened MountPod
  import opened Wrappers
  import opened Protocol
  import opened ProtocolInvariant
  import opened ProtocolSafety
  import opened ProtocolTheorems
  import opened ProtocolStages
  import opened ProtocolLosses

  /** The actor polls for a pod that is terminating and keeps its finalizer, and no run of the pod is about to take the
      finalizer off without first taking the lock that the actor holds. */
  ghost predicate Stalled(w: World, j: ActorId) {
    && j in w.actors && Polls(w.actors[j].pc) && w.actors[j].name in w.pods
    && w.pods[w.actors[j].name].terminating && w.pods[w.actors[j].name].finalizer
    && forall i :: i in w.actors && w.actors[i].name == w.actors[j].name ==> !TakesOff(w.actors[i].pc)
  }

  predicate TakesOff(pc: Pc) { pc.Fetch? || pc.Unfinalize? }

  ghost predicate LeavesAfter(w: World, j: ActorId, run: seq<Action>, w': World)
    requires j in w.actors
  {
    Leads(w, run, w') && Patient(run, j) && j in w'.actors && w'.actors[j].pc != w.actors[j].pc
  }

  ghost predicate CanLeave(w: World, j: ActorId)
    requires j in w.actors
  {
    exists run, w' :: LeavesAfter(w, j, run, w')
  }

  // ---------- a stalled actor stays stalled ----------

  lemma OwnPollStays(w: World, j: ActorId, c: Choice)
    requires Stalled(w, j) && Fits(w.actors[j]) && Enabled(w, Call(j, c)) && c.ok
    ensures Apply(w, Call(j, c)) == w
  {
    var a := w.actors[j];
    assert ActorStep(At(w.pods, a.name), w.nextUid, a, c) == (At(w.pods, a.name), a.pc);
    assert w.actors[j := a] == w.actors && w.pods[a.name := w.pods[a.name]] == w.pods;
  }

  /** Nobody else calls about the pod: the other runs of it are outside, and none takes the finalizer off. */
  lemma OtherCallStays(w: World, i: ActorId, c: Choice, j: ActorId)
    requires Inv(w) && Stalled(w, j) && Enabled(w, Call(i, c)) && i != j
    ensures Stalled(Apply(w, Call(i, c)), j) && Apply(w, Call(i, c)).actors[j] == w.actors[j]
  {
    PairApart(w, i, j);
    assert w.actors[i].name != w.actors[j].name;
    StoreElsewhere(w, i, c, j);
  }

  lemma StoreElsewhere(w: World, i: ActorId, c: Choice, j: ActorId)
    requires Stalled(w, j) && Enabled(w, Call(i, c)) && i != j && w.actors[i].name != w.actors[j].name
    ensures Stalled(Apply(w, Call(i, c)), j) && Apply(w, Call(i, c)).actors[j] == w.actors[j]
  {
    var a := w.actors[i];
    var r := ActorStep(At(w.pods, a.name), w.nextUid, a, c);
    PutElsewhere(w, i, r.0, r.1, j);
  }

  lemma PutElsewhere(w: World, i: ActorId, p: Option<Pod>, pc: Pc, j: ActorId)
    requires Stalled(w, j) && i in w.actors && i != j && w.actors[i].name != w.actors[j].name
    ensures Stalled(SetPc(Store(w, w.actors[i].name, p), i, pc), j)
    ensures SetPc(Store(w, w.actors[i].name, p), i, pc).actors[j] == w.actors[j]
  {
  }

  lemma UnlockStays(w: World, i: ActorId, j: ActorId)
    requires Inv(w) && Stalled(w, j) && Enabled(w, Unlock(i))
    ensures Stalled(Apply(w, Unlock(i)), j) && Apply(w, Unlock(i)).actors[j] == w.actors[j]
  {
    assert i != j;
    PairApart(w, i, j);
  }

  lemma StallStays(w: World, act: Action, j: ActorId)
    requires Inv(w) && Enabled(w, act) && Stalled(w, j) && (act.Call? && act.id == j ==> act.choice.ok)
    ensures Stalled(Apply(w, act), j) && Apply(w, act).actors[j] == w.actors[j]
  {
    match act
    case Call(i, c) =>
      if i == j {
        assert ActorInv(w, w.actors[j]);
        OwnPollStays(w, j, c);
      } else {
        OtherCallStays(w, i, c, j);
      }
    case Unlock(i) => UnlockStays(w, i, j);
    case _ => QuietStays(w, act, j);
  }

  /** Coming, locking and the environment: nobody gets past a lock to the finalizer, and the finalizer keeps the pod. */
  lemma QuietStays(w: World, act: Action, j: ActorId)
    requires Enabled(w, act) && Stalled(w, j) && !act.Call? && !act.Unlock?
    ensures Stalled(Apply(w, act), j) && Apply(w, act).actors[j] == w.actors[j]
  {
    match act
    case Spawn(_, _) =>
    case Lock(_) =>
    case _ =>
  }

  lemma {:induction false} StallLasts(w: World, run: seq<Action>, w': World, j: ActorId)
    requires Inv(w) && Leads(w, run, w') && Stalled(w, j) && Patient(run, j)
    ensures Stalled(w', j) && w'.actors[j] == w.actors[j]
    decreases |run|
  {
    if run != [] {
      StallStays(w, run[0], j);
      StepKeeps(w, run[0]);
      assert forall k :: 0 <= k < |run[1..]| ==> run[1..][k] == run[k + 1];
      StallLasts(Apply(w, run[0]), run[1..], w', j);
    }
  }

  // ---------- anyone else can get on ----------

  lemma LeavesAtOnce(w: World, j: ActorId)
    requires Inv(w) && j in w.actors && Polls(w.actors[j].pc)
    requires !PollsInVain(At(w.pods, w.actors[j].name), w.actors[j].pc)
    ensures CanLeave(w, j)
  {
    assert ActorInv(w, w.actors[j]);
    CallGetsOn(w, j, OK);
    var w' := Apply(w, Call(j, OK));
    assert [Call(j, OK)][1..] == [] && Leads(w', [], w');
    assert LeavesAfter(w, j, [Call(j, OK)], w');
  }

  lemma LeavesLater(w: World, act: Action, j: ActorId)
    requires Enabled(w, act) && j in w.actors && (act.Call? ==> act.id != j)
    requires j in Apply(w, act).actors && Apply(w, act).actors[j] == w.actors[j] && CanLeave(Apply(w, act), j)
    ensures CanLeave(w, j)
  {
    var run, w' :| LeavesAfter(Apply(w, act), j, run, w');
    var longer := [act] + run;
    assert longer[1..] == run;
    assert LeavesAfter(w, j, longer, w');
  }

  lemma LeavesWithoutFinalizer(w: World, j: ActorId)
    requires Inv(w) && j in w.actors && Polls(w.actors[j].pc) && w.actors[j].name in w.pods
    requires w.pods[w.actors[j].name].terminating && !w.pods[w.actors[j].name].finalizer
    ensures CanLeave(w, j)
  {
    var act := Vanish(w.actors[j].name);
    StepKeeps(w, act);
    LeavesAtOnce(Apply(w, act), j);
    LeavesLater(w, act, j);
  }

  lemma LeavesAfterUnfinalize(w: World, i: ActorId, j: ActorId)
    requires Inv(w) && j in w.actors && Polls(w.actors[j].pc) && w.actors[j].name in w.pods
    requires w.pods[w.actors[j].name].terminating
    requires i in w.actors && w.actors[i].name == w.actors[j].name && w.actors[i].pc.Unfinalize?
    ensures CanLeave(w, j)
  {
    var act := Call(i, Choice(true, true, 0));
    assert ActorInv(w, w.actors[i]);
    StepKeeps(w, act);
    LeavesWithoutFinalizer(Apply(w, act), j);
    LeavesLater(w, act, j);
  }

  lemma LeavesAfterFetch(w: World, i: ActorId, j: ActorId)
    requires Inv(w) && j in w.actors && Polls(w.actors[j].pc) && w.actors[j].name in w.pods
    requires w.pods[w.actors[j].name].terminating && w.pods[w.actors[j].name].finalizer
    requires i in w.actors && w.actors[i].name == w.actors[j].name && w.actors[i].pc.Fetch?
    ensures CanLeave(w, j)
  {
    assert ActorInv(w, w.actors[i]);
    FetchSees(w, i);
    StepKeeps(w, Call(i, OK));
    LeavesAfterUnfinalize(SetPc(w, i, Unfinalize(w.pods[w.actors[i].name])), i, j);
    LeavesLater(w, Call(i, OK), j);
  }

  lemma FetchSees(w: World, i: ActorId)
    requires i in w.actors && Fits(w.actors[i]) && w.actors[i].pc.Fetch? && w.actors[i].name in w.pods
    requires w.pods[w.actors[i].name].terminating && w.pods[w.actors[i].name].finalizer
    ensures Apply(w, Call(i, OK)) == SetPc(w, i, Unfinalize(w.pods[w.actors[i].name]))
  {
    var p := w.pods[w.actors[i].name];
    assert HandlerStep(Some(p), w.nextUid, Fetch, OK) == (Some(p), Unfinalize(p));
    assert w.pods[w.actors[i].name := p] == w.pods;
  }

  /** A polling actor, a publisher or a handler, can get on without a failed call exactly when its pod is gone or
      not terminating, or the finalizer is off, or a run of the pod is already past the lock to take it off. */
  lemma LeavesIff(w: World, j: ActorId)
    requires Reachable(w) && j in w.actors && Polls(w.actors[j].pc)
    ensures CanLeave(w, j) <==> !Stalled(w, j)
  {
    ReachableInv(w);
    if Stalled(w, j) {
      forall run, w' ensures !LeavesAfter(w, j, run, w') {
        if Leads(w, run, w') && Patient(run, j) {
          StallLasts(w, run, w', j);
        }
      }
    } else {
      var n := w.actors[j].name;
      if !PollsInVain(At(w.pods, n), w.actors[j].pc) {
        LeavesAtOnce(w, j);
      } else if !w.pods[n].finalizer {
        LeavesWithoutFinalizer(w, j);
      } else {
        var i :| i in w.actors && w.actors[i].name == n && TakesOff(w.actors[i].pc);
        if w.actors[i].pc.Fetch? {
          LeavesAfterFetch(w, i, j);
        } else {
          LeavesAfterUnfinalize(w, i, j);
        }
      }
    }
  }

  // ---------- stalls happen ----------

  /** A publisher waits for a deleted pod under the lock that the pod's run needs before its handler takes the finalizer
      off: for every job with a well-formed snapshot. */
  lemma PublisherCanStall(k: Cast) returns (w: World)
    requires k.job.Reconcile? && WellFormed(Snapshot(k))
    ensures Reachable(w) && Stalled(w, 1) && w.actors[1] == Actor(k.name, Publish(k.first, BaseOf(k)), Poll)
    ensures 0 in w.actors && w.actors[0] == Actor(k.name, k.job, WaitLock) && !Enabled(w, Lock(0))
  {
    var p := Pod(k.job.current.uid, true, true, Snapshot(k));
    var s := Stage(Some(p), p.uid + 1, None, WaitLock, None, None, map[]);
    Starts(k, p, p.uid + 1);
    PublisherEnters(k, s, 1);
    var s' := s.(holder := Some(1), first := Some(Poll));
    Arrives(k, s');
    w := WorldAt(k, s');
    assert w.actors[0] == Person(k, s', 0) && w.actors[1] == Person(k, s', 1);
  }

  /** A later incarnation was created and deleted again while the handler was without the lock. */
  lemma HandlerMeetsNext(k: Cast, s: Stage, f: Pod)
    requires !k.leaves && Reached(k, s) && k.job.Reconcile? && s.run == WaitLockAgain(f)
    requires s.pod.None? && s.holder.None? && s.late.None?
    ensures Reached(k, s.(pod := Some(MadeBy(k, 2, s.next).(terminating := true)), next := s.next + 1,
      holder := Some(0), run := PollGone(f), late := Some(Done)))
  {
    var made := s.(pod := Some(MadeBy(k, 2, s.next)), next := s.next + 1, late := Some(Done));
    PublisherCreates(k, s, 2);
    IsDeleted(k, made);
    Locks(k, made.(pod := Some(made.pod.value.(terminating := true))), 0);
  }

  lemma HandlerLosesLock(k: Cast) returns (s: Stage, f: Pod)
    requires !k.leaves && k.job.Reconcile? && WellFormed(Snapshot(k)) && (k.job.errored || k.job.current.terminating)
    ensures Reached(k, s) && s.run == WaitLockAgain(f) && s.pod.None? && s.holder.None? && s.late.None?
    ensures s.first == Some(Done)
  {
    var s0 := FirstCreatesNext(k);
    var p := s0.pod.value;
    f := p.(terminating := true);
    assert HasRef(f.annotations, k.first);
    assert k.first in Refs(f.annotations);
    IsDeleted(k, s0);
    HandlerCalls(k, s0.(pod := Some(f)), OK, Some(f), Unfinalize(f));
    HandlerLetsItGo(k, s0.(pod := Some(f), run := Unfinalize(f)), f, f);
    s := s0.(pod := None, run := WaitLockAgain(f), gone := s0.gone[(k.name, f.uid) := Refs(f.annotations)]);
  }

  /** A handler waits for a pod of which it is the only run: for every job that gets to its handler. */
  lemma HandlerCanStall(k: Cast) returns (w: World)
    requires !k.leaves && k.job.Reconcile? && WellFormed(Snapshot(k)) && (k.job.errored || k.job.current.terminating)
    ensures Reachable(w) && Stalled(w, 0) && w.actors[0].name == k.name && w.actors[0].job == k.job
  {
    var s, f := HandlerLosesLock(k);
    HandlerMeetsNext(k, s, f);
    var s' := s.(pod := Some(MadeBy(k, 2, s.next).(terminating := true)), next := s.next + 1,
                 holder := Some(0), run := PollGone(f), late := Some(Done));
    StalledAt(k, s');
    Arrives(k, s');
    w := WorldAt(k, s');
  }

  lemma StalledAt(k: Cast, s: Stage)
    requires s.run.PollGone? && s.pod.Some? && s.pod.value.terminating && s.pod.value.finalizer
    requires s.first.Some? ==> s.first.value.Done?
    requires s.late.Some? ==> s.late.value.Done?
    ensures Stalled(WorldAt(k, s), 0) && WorldAt(k, s).actors[0] == Actor(k.name, k.job, s.run)
  {
    var w := WorldAt(k, s);
    assert w.actors[0] == Person(k, s, 0);
    forall i | i in w.actors ensures !TakesOff(w.actors[i].pc) {
      assert w.actors[i] == Person(k, s, i);
    }
  }
}
