/** Every action keeps the invariant, so it holds in every reachable world. */
module ProtocolSafety {
  import opened MountPod
  import opened Wrappers
  import opened Protocol
  import opened ProtocolInvariant

  /** What a call may do to the program counter: it neither enters nor leaves the critical section, waits for no lock
      first, and gets to the handler only from the handler. */
  predicate StaysInside(pc: Pc, pc': Pc) {
    && (Critical(pc') <==> Critical(pc)) && !pc'.WaitLock?
    && (Handling(pc') ==> Handling(pc))
  }

  lemma PublishInside(p: Option<Pod>, uid: nat, t: Target, base: Annotations, pc: Pc, c: Choice)
    requires PublishPc(pc)
    ensures StaysInside(pc, PublishStep(p, uid, t, base, pc, c).1)
  {
  }

  lemma UnpublishInside(p: Option<Pod>, t: Target, pc: Pc, c: Choice)
    requires UnpublishPc(pc)
    ensures StaysInside(pc, UnpublishStep(p, t, pc, c).1)
  {
  }

  lemma CheckInside(p: Option<Pod>, job: Job, pc: Pc, c: Choice)
    requires job.Reconcile? && CheckPc(pc)
    ensures var pc' := CheckStep(p, job, pc, c).1; CheckPc(pc') || pc'.Release? || pc'.ReleaseToHandle?
  {
    match pc
    case Inspect =>
    case Compare =>
    case Prune =>
    case Idle =>
    case Postpone(_) =>
    case _ =>
  }

  lemma CheckLeadsInside(pc: Pc, pc': Pc)
    requires CheckPc(pc) && (CheckPc(pc') || pc'.Release? || pc'.ReleaseToHandle?)
    ensures StaysInside(pc, pc')
  {
  }

  lemma HandlerInside(p: Option<Pod>, uid: nat, pc: Pc, c: Choice)
    requires pc.Fetch? || pc.Unfinalize? || LockedHandlerPc(pc)
    ensures StaysInside(pc, HandlerStep(p, uid, pc, c).1)
  {
  }

  lemma CallStaysInside(p: Option<Pod>, uid: nat, a: Actor, c: Choice)
    requires Calling(a.pc) && Fits(a)
    ensures StaysInside(a.pc, ActorStep(p, uid, a, c).1)
  {
    match a.job
    case Publish(t, base) => PublishInside(p, uid, t, base, a.pc, c);
    case Unpublish(t) => UnpublishInside(p, t, a.pc, c);
    case Reconcile(_, _, _) =>
      if CheckPc(a.pc) {
        CheckInside(p, a.job, a.pc, c);
        CheckLeadsInside(a.pc, CheckStep(p, a.job, a.pc, c).1);
      } else {
        HandlerInside(p, uid, a.pc, c);
      }
  }

  lemma PairApart(w: World, i: ActorId, j: ActorId)
    requires Inv(w) && i in w.actors && j in w.actors && i != j
    ensures Apart(w.actors[i], w.actors[j])
  {
    assert NoLateAdd(w.actors[i], w.actors[j]) && OneRun(w.actors[i], w.actors[j]);
    if Critical(w.actors[i].pc) && Critical(w.actors[j].pc) {
      assert Owns(w.locks, i, w.actors[i]) && Owns(w.locks, j, w.actors[j]);
    }
  }

  /** Only `AddGet` on a live pod makes an addition pending. */
  lemma PendingAdd(p: Option<Pod>, uid: nat, a: Actor, c: Choice)
    requires Calling(a.pc) && Fits(a) && ActorStep(p, uid, a, c).1.AddPatch?
    ensures a.job.Publish? && a.pc.AddGet? && p == Some(ActorStep(p, uid, a, c).1.seen) && !p.value.terminating
  {
  }

  lemma CallPairs(w: World, i: ActorId, c: Choice)
    requires Inv(w) && Enabled(w, Call(i, c))
    ensures PairsInv(Apply(w, Call(i, c)).actors)
  {
    var a := w.actors[i];
    var p := At(w.pods, a.name);
    var r := ActorStep(p, w.nextUid, a, c);
    assert ActorInv(w, a);
    CallStaysInside(p, w.nextUid, a, c);
    if r.1.AddPatch? {
      PendingAdd(p, w.nextUid, a, c);
    }
    forall j | j in w.actors && j != i
      ensures OneRun(a.(pc := r.1), w.actors[j])
      ensures NoLateAdd(a.(pc := r.1), w.actors[j]) && NoLateAdd(w.actors[j], a.(pc := r.1))
    {
      assert OneRun(a, w.actors[j]) && NoLateAdd(a, w.actors[j]) && NoLateAdd(w.actors[j], a);
      assert ActorInv(w, w.actors[j]);
    }
    PairsMove(w.actors, i, a.(pc := r.1));
  }

  lemma CallPods(w: World, i: ActorId, c: Choice)
    requires PodsInv(w) && Enabled(w, Call(i, c)) && ActorInv(w, w.actors[i])
    ensures PodsInv(Apply(w, Call(i, c)))
  {
    var a := w.actors[i];
    var p := ActorStep(At(w.pods, a.name), w.nextUid, a, c).0;
    OwnKeeps(w, a, c);
    ShapeOf(At(w.pods, a.name), w.nextUid, a, c);
    StorePods(w, a.name, p);
  }

  lemma StorePods(w: World, n: Name, p: Option<Pod>)
    requires PodsInv(w) && Shape(At(w.pods, n), w.nextUid, p) && PodInv(p, Store(w, n, p).nextUid)
    ensures PodsInv(Store(w, n, p))
  {
  }

  lemma CallLocks(w: World, i: ActorId, c: Choice)
    requires Inv(w) && Enabled(w, Call(i, c))
    ensures LockInv(Apply(w, Call(i, c)))
  {
    var a := w.actors[i];
    assert ActorInv(w, a);
    var r := ActorStep(At(w.pods, a.name), w.nextUid, a, c);
    CallStaysInside(At(w.pods, a.name), w.nextUid, a, c);
    TableMove(w.locks, w.actors, i, r.1);
  }

  lemma CallActors(w: World, i: ActorId, c: Choice, j: ActorId)
    requires Inv(w) && Enabled(w, Call(i, c)) && j in w.actors
    ensures ActorInv(Apply(w, Call(i, c)), Apply(w, Call(i, c)).actors[j])
  {
    var a := w.actors[i];
    assert ActorInv(w, a) && ActorInv(w, w.actors[j]);
    var w' := Apply(w, Call(i, c));
    var stored := Store(w, a.name, ActorStep(At(w.pods, a.name), w.nextUid, a, c).0);
    if j == i {
      OwnKeeps(w, a, c);
      SameServer(stored, w', w'.actors[j]);
    } else {
      PairApart(w, i, j);
      OthersKeep(w, a, c, w.actors[j]);
      SameServer(stored, w', w.actors[j]);
    }
  }

  /** An actor's knowledge is about the server only. */
  lemma SameServer(w: World, w': World, a: Actor)
    requires ActorInv(w, a) && w.pods == w'.pods && w.nextUid == w'.nextUid && w.vanished == w'.vanished
    ensures ActorInv(w', a)
  {
  }

  lemma CallKeeps(w: World, i: ActorId, c: Choice)
    requires Inv(w) && Enabled(w, Call(i, c))
    ensures Inv(Apply(w, Call(i, c)))
  {
    var w' := Apply(w, Call(i, c));
    assert ActorInv(w, w.actors[i]);
    CallPods(w, i, c);
    CallLocks(w, i, c);
    forall j | j in w'.actors ensures ActorInv(w', w'.actors[j]) {
      CallActors(w, i, c, j);
    }
    CallPairs(w, i, c);
  }

  lemma ShapeOf(p: Option<Pod>, uid: nat, a: Actor, c: Choice)
    ensures Shape(p, uid, ActorStep(p, uid, a, c).0)
  {
    match a.job
    case Publish(t, base) => PublishShape(p, uid, t, base, a.pc, c);
    case Unpublish(t) => UnpublishShape(p, uid, t, a.pc, c);
    case Reconcile(_, _, _) => ReconcileShape(p, uid, a.job, a.pc, c);
  }

  lemma StoredIs(w: World, i: ActorId, c: Choice, n: Name)
    requires Enabled(w, Call(i, c))
    ensures At(Apply(w, Call(i, c)).pods, n) ==
      if w.actors[i].name == n then ActorStep(At(w.pods, n), w.nextUid, w.actors[i], c).0 else At(w.pods, n)
  {
    var a := w.actors[i];
    ShapeOf(At(w.pods, a.name), w.nextUid, a, c);
  }

  /** Taking or freeing a stripe keeps all knowledge about the server. */
  lemma TurnActors(w: World, w': World, i: ActorId, pc: Pc)
    requires Inv(w) && i in w.actors && w' == SetPc(w.(locks := w'.locks), i, pc)
    requires ActorInv(w, w.actors[i].(pc := pc))
    ensures PodsInv(w')
    ensures forall j :: j in w'.actors ==> ActorInv(w', w'.actors[j])
  {
    forall j | j in w'.actors ensures ActorInv(w', w'.actors[j]) {
      assert ActorInv(w, w.actors[j]);
      SameServer(w, w', w'.actors[j]);
    }
  }

  lemma LockPairs(w: World, i: ActorId)
    requires PairsInv(w.actors) && Enabled(w, Lock(i))
    ensures PairsInv(Apply(w, Lock(i)).actors)
  {
    var a := w.actors[i].(pc := AfterLock(w.actors[i]));
    forall j | j in w.actors && j != i
      ensures OneRun(a, w.actors[j]) && NoLateAdd(a, w.actors[j]) && NoLateAdd(w.actors[j], a)
    {
      assert OneRun(w.actors[i], w.actors[j]) && NoLateAdd(w.actors[j], w.actors[i]);
    }
    PairsMove(w.actors, i, a);
  }

  lemma LockKeeps(w: World, i: ActorId)
    requires Inv(w) && Enabled(w, Lock(i))
    ensures Inv(Apply(w, Lock(i)))
  {
    var w' := Apply(w, Lock(i));
    assert ActorInv(w, w.actors[i]);
    TurnActors(w, w', i, AfterLock(w.actors[i]));
    TableLock(w.locks, w.actors, i, AfterLock(w.actors[i]));
    LockPairs(w, i);
  }

  /** A run leaves `checkAnnotations` while no publisher of its pod can be inside the lock. */
  lemma UnlockPairs(w: World, i: ActorId)
    requires LockInv(w) && PairsInv(w.actors) && Enabled(w, Unlock(i))
    ensures PairsInv(Apply(w, Unlock(i)).actors)
  {
    var a := w.actors[i].(pc := AfterUnlock(w.actors[i]));
    forall j | j in w.actors && j != i
      ensures OneRun(a, w.actors[j]) && NoLateAdd(a, w.actors[j]) && NoLateAdd(w.actors[j], a)
    {
      assert OneRun(w.actors[i], w.actors[j]);
      if w.actors[j].pc.AddPatch? {
        assert Owns(w.locks, i, w.actors[i]) && Owns(w.locks, j, w.actors[j]);
      }
    }
    PairsMove(w.actors, i, a);
  }

  lemma UnlockLocks(w: World, i: ActorId)
    requires LockInv(w) && Enabled(w, Unlock(i))
    ensures LockInv(Apply(w, Unlock(i)))
  {
    UnlockedOutside(w.actors[i]);
    TableUnlock(w.locks, w.actors, i, AfterUnlock(w.actors[i]));
  }

  lemma UnlockedOutside(a: Actor)
    requires a.pc.Release? || a.pc.ReleaseToHandle?
    ensures Critical(a.pc) && !Critical(AfterUnlock(a))
  {
  }

  lemma UnlockActors(w: World, i: ActorId)
    requires Inv(w) && Enabled(w, Unlock(i))
    ensures var w' := Apply(w, Unlock(i)); PodsInv(w') && forall j :: j in w'.actors ==> ActorInv(w', w'.actors[j])
  {
    UnlockedActor(w, w.actors[i]);
    TurnActors(w, Apply(w, Unlock(i)), i, AfterUnlock(w.actors[i]));
  }

  lemma UnlockedActor(w: World, a: Actor)
    requires ActorInv(w, a) && (a.pc.Release? || a.pc.ReleaseToHandle?)
    ensures ActorInv(w, a.(pc := AfterUnlock(a)))
  {
  }

  lemma UnlockKeeps(w: World, i: ActorId)
    requires Inv(w) && Enabled(w, Unlock(i))
    ensures Inv(Apply(w, Unlock(i)))
  {
    UnlockActors(w, i);
    UnlockLocks(w, i);
    UnlockPairs(w, i);
  }

  lemma SpawnedActor(w: World, i: ActorId, a: Actor)
    requires Enabled(w, Spawn(i, a))
    ensures ActorInv(Apply(w, Spawn(i, a)), a)
  {
  }

  lemma SpawnKeepsActor(w: World, i: ActorId, a: Actor, b: Actor)
    requires Enabled(w, Spawn(i, a)) && ActorInv(w, b)
    ensures ActorInv(Apply(w, Spawn(i, a)), b)
  {
  }

  lemma SpawnActors(w: World, i: ActorId, a: Actor)
    requires Enabled(w, Spawn(i, a)) && forall j :: j in w.actors ==> ActorInv(w, w.actors[j])
    ensures var w' := Apply(w, Spawn(i, a)); forall j :: j in w'.actors ==> ActorInv(w', w'.actors[j])
  {
    var w' := Apply(w, Spawn(i, a));
    forall j | j in w'.actors ensures ActorInv(w', w'.actors[j]) {
      if j == i {
        SpawnedActor(w, i, a);
      } else {
        SpawnKeepsActor(w, i, a, w.actors[j]);
      }
    }
  }

  lemma SpawnKeeps(w: World, i: ActorId, a: Actor)
    requires Inv(w) && Enabled(w, Spawn(i, a))
    ensures Inv(Apply(w, Spawn(i, a)))
  {
    SpawnActors(w, i, a);
    PairsMove(w.actors, i, a);
    TableSpawn(w.locks, w.actors, i, a);
  }

  /** The steps of the environment: `ExternalDelete`, `Vanish` and `Annotate`. */
  lemma EnvironmentKeeps(w: World, act: Action)
    requires Inv(w) && Enabled(w, act) && (act.ExternalDelete? || act.Vanish? || act.Annotate?)
    ensures Inv(Apply(w, act))
  {
    var w' := Apply(w, act);
    if act.Annotate? {
      var a := w.pods[act.name].annotations;
      var a' := w'.pods[act.name].annotations;
      assert Refs(a') == Refs(a);
      assert WellFormed(a');
    }
    forall j | j in w'.actors ensures ActorInv(w', w'.actors[j]) {
      assert ActorInv(w, w.actors[j]);
      EnvironmentKeepsActor(w, act, w.actors[j]);
    }
  }

  lemma EnvironmentKeepsActor(w: World, act: Action, b: Actor)
    requires PodsInv(w) && ActorInv(w, b) && Enabled(w, act)
    requires act.ExternalDelete? || act.Vanish? || act.Annotate?
    ensures ActorInv(Apply(w, act), b)
  {
    if act.name != b.name {
      OtherNameKeepsActor(w, act, b);
    } else if act.Annotate? {
      AnnotateKeepsActor(w, act, b);
    } else if act.Vanish? {
      VanishKeepsActor(w, act, b);
    } else {
      DeleteKeepsActor(w, act, b);
    }
  }

  lemma OtherNameKeepsActor(w: World, act: Action, b: Actor)
    requires ActorInv(w, b) && Enabled(w, act) && (act.ExternalDelete? || act.Vanish? || act.Annotate?)
    requires act.name != b.name
    ensures ActorInv(Apply(w, act), b)
  {
    assert At(Apply(w, act).pods, b.name) == At(w.pods, b.name);
  }

  lemma AnnotateKeepsActor(w: World, act: Action, b: Actor)
    requires ActorInv(w, b) && Enabled(w, act) && act.Annotate? && act.name == b.name
    ensures ActorInv(Apply(w, act), b)
  {
    assert Refs(Apply(w, act).pods[act.name].annotations) == Refs(w.pods[act.name].annotations);
  }

  lemma VanishKeepsActor(w: World, act: Action, b: Actor)
    requires PodsInv(w) && ActorInv(w, b) && Enabled(w, act) && act.Vanish? && act.name == b.name
    ensures ActorInv(Apply(w, act), b)
  {
  }

  lemma DeleteKeepsActor(w: World, act: Action, b: Actor)
    requires ActorInv(w, b) && Enabled(w, act) && act.ExternalDelete? && act.name == b.name
    ensures ActorInv(Apply(w, act), b)
  {
  }

  lemma StepKeeps(w: World, act: Action)
    requires Inv(w) && Enabled(w, act)
    ensures Inv(Apply(w, act))
  {
    match act
    case Spawn(i, a) => SpawnKeeps(w, i, a);
    case Lock(i) => LockKeeps(w, i);
    case Call(i, c) => CallKeeps(w, i, c);
    case Unlock(i) => UnlockKeeps(w, i);
    case _ => EnvironmentKeeps(w, act);
  }

  lemma {:induction false} RunKeeps(w: World, run: seq<Action>, w': World)
    requires Inv(w) && Leads(w, run, w')
    ensures Inv(w')
    decreases |run|
  {
    if run != [] {
      StepKeeps(w, run[0]);
      RunKeeps(Apply(w, run[0]), run[1..], w');
    }
  }

  lemma ReachableInv(w: World)
    requires Reachable(w)
    ensures Inv(w)
  {
    var w0, run :| Initial(w0) && Leads(w0, run, w);
    RunKeeps(w0, run, w);
  }

  lemma ReachableLocks(w: World)
    requires Reachable(w)
    ensures LockTable(w.locks, w.actors)
  {
    ReachableInv(w);
  }

  lemma ReachableActor(w: World, i: ActorId)
    requires Reachable(w) && i in w.actors
    ensures ActorInv(w, w.actors[i])
    ensures PodInv(At(w.pods, w.actors[i].name), w.nextUid)
  {
    ReachableInv(w);
  }
}
