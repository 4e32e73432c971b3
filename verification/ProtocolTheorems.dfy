/** What holds in every interleaving of publishers, unpublishers and reconcilers. */
module ProtocolTheorems {
  import opened MountPod
  import opened Wrappers
  import opened Protocol
  import opened ProtocolInvariant
  import opened ProtocolSafety
  import PodLocks

  // ---------- locks ----------

  lemma NoTwoStripes(w: World, s1: nat, s2: nat)
    requires Reachable(w) && s1 in w.locks && s2 in w.locks && w.locks[s1] == w.locks[s2]
    ensures s1 == s2
  {
    ReachableLocks(w);
    assert OwnedStripe(w.locks, w.actors, s1) && OwnedStripe(w.locks, w.actors, s2);
  }

  /** Two actors inside the lock never share a stripe, so they never work on the same pod. */
  lemma MutualExclusion(w: World, i: ActorId, j: ActorId)
    requires Reachable(w) && i in w.actors && j in w.actors && i != j
    requires Critical(w.actors[i].pc) && Critical(w.actors[j].pc)
    ensures PodLocks.Stripe(w.actors[i].name) != PodLocks.Stripe(w.actors[j].name)
    ensures w.actors[i].name != w.actors[j].name
  {
    ReachableLocks(w);
    assert Owns(w.locks, i, w.actors[i]) && Owns(w.locks, j, w.actors[j]);
  }

  /** The actor waits under the lock for its pod to go. */
  predicate Polls(pc: Pc) { pc.Poll? || pc.PollGone? }

  predicate PollsInVain(p: Option<Pod>, pc: Pc) {
    Polls(pc) && p.Some? && p.value.terminating
  }

  /** The actor itself has an action that the lock table cannot refuse and that gets it on, however the call ends. */
  ghost predicate CanMove(w: World, i: ActorId) {
    Enabled(w, Unlock(i)) || forall c :: Enabled(w, Call(i, c)) && Apply(w, Call(i, c)).actors[i].pc != w.actors[i].pc
  }

  lemma PublishMoves(p: Option<Pod>, uid: nat, t: Target, base: Annotations, pc: Pc, c: Choice)
    requires PublishPc(pc)
    ensures PublishStep(p, uid, t, base, pc, c).1 == pc <==> PollsInVain(p, pc) && c.ok
  {
  }

  lemma UnpublishMoves(p: Option<Pod>, t: Target, pc: Pc, c: Choice)
    requires UnpublishPc(pc)
    ensures UnpublishStep(p, t, pc, c).1 != pc
  {
  }

  lemma CheckMoves(p: Option<Pod>, job: Job, pc: Pc, c: Choice)
    requires job.Reconcile? && CheckPc(pc)
    ensures CheckStep(p, job, pc, c).1 != pc
  {
    match pc
    case Inspect =>
    case Compare =>
    case Prune =>
    case Idle =>
    case Postpone(_) =>
    case _ =>
  }

  lemma HandlerMoves(p: Option<Pod>, uid: nat, pc: Pc, c: Choice)
    requires pc.Fetch? || pc.Unfinalize? || LockedHandlerPc(pc)
    ensures HandlerStep(p, uid, pc, c).1 == pc <==> PollsInVain(p, pc) && c.ok
  {
  }

  lemma CallMoves(p: Option<Pod>, uid: nat, a: Actor, c: Choice)
    requires Fits(a) && Calling(a.pc)
    ensures ActorStep(p, uid, a, c).1 == a.pc <==> PollsInVain(p, a.pc) && c.ok
  {
    match a.job
    case Publish(t, base) => PublishMoves(p, uid, t, base, a.pc, c);
    case Unpublish(t) => UnpublishMoves(p, t, a.pc, c);
    case Reconcile(_, _, _) =>
      if CheckPc(a.pc) {
        CheckMoves(p, a.job, a.pc, c);
      } else {
        HandlerMoves(p, uid, a.pc, c);
      }
  }

  lemma CallGetsOn(w: World, i: ActorId, c: Choice)
    requires i in w.actors && Fits(w.actors[i]) && Calling(w.actors[i].pc)
    ensures Enabled(w, Call(i, c))
    ensures Apply(w, Call(i, c)).actors[i].pc == w.actors[i].pc <==>
      PollsInVain(At(w.pods, w.actors[i].name), w.actors[i].pc) && c.ok
  {
    CallMoves(At(w.pods, w.actors[i].name), w.nextUid, w.actors[i], c);
  }

  /** An actor that is not blocked by a lock has an action of its own that gets it on, unless it polls for a pod that
      is still terminating. */
  lemma BusyCanMove(w: World, i: ActorId)
    requires Reachable(w) && i in w.actors && !Waiting(w.actors[i].pc) && !w.actors[i].pc.Done?
    ensures CanMove(w, i) <==> !PollsInVain(At(w.pods, w.actors[i].name), w.actors[i].pc)
  {
    ReachableActor(w, i);
    if Calling(w.actors[i].pc) {
      forall c ensures Enabled(w, Call(i, c)) && (Apply(w, Call(i, c)).actors[i].pc == w.actors[i].pc <==>
        PollsInVain(At(w.pods, w.actors[i].name), w.actors[i].pc) && c.ok)
      {
        CallGetsOn(w, i, c);
      }
      var ok := Choice(true, true, 0);
      assert Enabled(w, Call(i, ok));
    }
  }

  lemma Blocker(w: World, i: ActorId)
    requires LockInv(w) && i in w.actors && Waiting(w.actors[i].pc) && !Enabled(w, Lock(i))
    ensures var s := PodLocks.Stripe(w.actors[i].name);
      s in w.locks && w.locks[s] != i && w.locks[s] in w.actors && Critical(w.actors[w.locks[s]].pc)
  {
    assert OwnedStripe(w.locks, w.actors, PodLocks.Stripe(w.actors[i].name));
  }

  /** Lock waits form no cycle, also among pods that share a stripe: whoever blocks a waiting actor waits for no lock.
      It can get on, unless it polls for a pod that is still terminating (see `LeavesIff`). */
  lemma NoLockCycle(w: World, i: ActorId)
    requires Reachable(w) && i in w.actors && Waiting(w.actors[i].pc) && !Enabled(w, Lock(i))
    ensures var s := PodLocks.Stripe(w.actors[i].name);
      && s in w.locks && w.locks[s] != i && w.locks[s] in w.actors && !Waiting(w.actors[w.locks[s]].pc)
      && (CanMove(w, w.locks[s]) <==>
           !PollsInVain(At(w.pods, w.actors[w.locks[s]].name), w.actors[w.locks[s]].pc))
  {
    ReachableLocks(w);
    Blocker(w, i);
    BusyCanMove(w, w.locks[PodLocks.Stripe(w.actors[i].name)]);
  }

  // ---------- deletes ----------

  /** The driver turns a pod terminating only when the server stores no reference for it at that moment,
      and an unpublisher gives a delete-at stamp only to such a pod. */
  lemma DeletesOnlyIdlePods(w: World, act: Action, n: Name)
    requires Reachable(w) && Enabled(w, act) && !act.ExternalDelete?
    requires n in w.pods && n in Apply(w, act).pods
    requires !w.pods[n].terminating && Apply(w, act).pods[n].terminating
    ensures Refs(w.pods[n].annotations) == {}
  {
    if act.Call? {
      ReachableActor(w, act.id);
      DeletesAre(At(w.pods, w.actors[act.id].name), w.nextUid, w.actors[act.id], act.choice);
    }
  }

  lemma DeletesAre(p: Option<Pod>, uid: nat, a: Actor, c: Choice)
    requires Fits(a) && p.Some? && !p.value.terminating
    requires ActorStep(p, uid, a, c).0.Some? && ActorStep(p, uid, a, c).0.value.terminating
    ensures a.pc.DeleteIdle? || a.pc.Delete?
  {
    match a.job
    case Publish(_, _) =>
    case Unpublish(t) => assert ActorStep(p, uid, a, c) == UnpublishStep(p, t, a.pc, c);
    case Reconcile(_, _, _) =>
      assert ActorStep(p, uid, a, c) == ReconcileStep(p, uid, a.job, a.pc, c);
      if CheckPc(a.pc) {
      } else {
      }
  }

  lemma UnpublisherStampsOnlyIdlePods(w: World, i: ActorId)
    requires Reachable(w) && i in w.actors && w.actors[i].pc.StampIdle?
    ensures RefsOf(At(w.pods, w.actors[i].name)) == {}
  {
    ReachableActor(w, i);
  }

  // ---------- the reference sets change as by atomic operations ----------

  /** All that counts of a stored pod: the incarnation and its reference set. */
  datatype Incarnation = Incarnation(uid: nat, refs: set<Target>)

  datatype Effect =
    | Nothing
    | CreateWith(refs: set<Target>)
    | Add(target: Target)
    | Remove(target: Target)
    | PruneDead(dead: set<Target>)
    | Merge(refs: set<Target>)
    | Drop

  function IncarnationOf(p: Option<Pod>): (r: Option<Incarnation>) {
    if p.Some? then Some(Incarnation(p.value.uid, Refs(p.value.annotations))) else None
  }

  /** The abstract machine: one indivisible set operation per effect. */
  function Atomic(e: Option<Incarnation>, uid: nat, eff: Effect): (r: Option<Incarnation>) {
    match (eff, e)
    case (CreateWith(r), _) => Some(Incarnation(uid, r))
    case (Add(t), Some(x)) => Some(x.(refs := x.refs + {t}))
    case (Remove(t), Some(x)) => Some(x.(refs := x.refs - {t}))
    case (PruneDead(d), Some(x)) => Some(x.(refs := x.refs - d))
    case (Merge(r), Some(x)) => Some(x.(refs := x.refs + r))
    case (Drop, _) => None
    case _ => e
  }

  /** When the abstract machine may take an effect. */
  predicate Permitted(e: Option<Incarnation>, eff: Effect) {
    match eff
    case Nothing => true
    case CreateWith(_) => e.None?
    case Add(t) => e.Some? && t !in e.value.refs
    case Remove(t) => e.Some? && t in e.value.refs
    case PruneDead(d) => e.Some? && d <= e.value.refs
    case Merge(_) => e.Some?
    case Drop => e.Some?
  }

  /** The atomic operation that a call stands for. */
  function CallEffect(p: Option<Pod>, a: Actor, c: Choice): (r: Effect) {
    if !c.ok then Nothing
    else (
      match (a.job, a.pc)
      case (Publish(t, _), Create) => if p.None? then CreateWith({t}) else Nothing
      case (Publish(t, _), AddPatch(_)) => if p.Some? then Add(t) else Nothing
      case (Unpublish(t), RemoveKey) => if p.Some? then Remove(t) else Nothing
      case (Reconcile(current, live, _), Prune) =>
        if p.Some? && PruneKeys(current.annotations, live) <= p.value.annotations.Keys
        then PruneDead(DeadRefs(current.annotations, live)) else Nothing
      case (Reconcile(_, _, _), Recreate(f)) => if p.None? then CreateWith(Refs(f.annotations)) else Nothing
      case (Reconcile(_, _, _), MergeBack(f, _)) => if p.Some? then Merge(Refs(f.annotations)) else Nothing
      case _ => Nothing)
  }

  lemma PublishEffect(p: Option<Pod>, w: World, t: Target, base: Annotations, pc: Pc, c: Choice, n: Name)
    requires PcInv(p, w, Actor(n, Publish(t, base), pc)) && BaseInv(Actor(n, Publish(t, base), pc))
    ensures var eff := CallEffect(p, Actor(n, Publish(t, base), pc), c);
      && Permitted(IncarnationOf(p), eff)
      && IncarnationOf(PublishStep(p, w.nextUid, t, base, pc, c).0) == Atomic(IncarnationOf(p), w.nextUid, eff)
  {
    if pc.Create? {
      var made := base[RefKey(t) := Text(t)];
      assert Refs(made) == {t} by {
        forall u ensures HasRef(made, u) <==> u == t {
          assert HasRef(base, u) <==> u in Refs(base);
        }
      }
    } else if pc.AddPatch? {
    } else {
    }
  }

  lemma UnpublishEffect(p: Option<Pod>, w: World, t: Target, pc: Pc, c: Choice, n: Name)
    requires PodInv(p, w.nextUid) && PcInv(p, w, Actor(n, Unpublish(t), pc))
    ensures var eff := CallEffect(p, Actor(n, Unpublish(t), pc), c);
      && Permitted(IncarnationOf(p), eff)
      && IncarnationOf(UnpublishStep(p, t, pc, c).0) == Atomic(IncarnationOf(p), w.nextUid, eff)
  {
    if pc.RemoveKey? && p.Some? {
      RemoveOne(p.value.annotations, RefKey(t));
      RefsAfterRemoveOne(p.value.annotations, t);
    } else if pc.StampIdle? {
    } else {
    }
  }

  /** Pruning takes out the dead references of the snapshot and nothing else. */
  lemma PruneEffect(a: Annotations, snapshot: Annotations, live: set<string>)
    requires WellFormed(a) && PruneKeys(snapshot, live) <= a.Keys
    ensures DeadRefs(snapshot, live) <= Refs(a)
    ensures Refs(a - PruneKeys(snapshot, live)) == Refs(a) - DeadRefs(snapshot, live)
  {
    PrunedTargets(snapshot, live);
    RefsAfterRemove(a, PruneKeys(snapshot, live));
    assert forall t :: t in DeadRefs(snapshot, live) ==> RefKey(t) in PruneKeys(snapshot, live);
  }

  lemma ReconcileEffect(p: Option<Pod>, w: World, job: Job, pc: Pc, c: Choice, n: Name)
    requires job.Reconcile? && PodInv(p, w.nextUid) && PcInv(p, w, Actor(n, job, pc))
    ensures var eff := CallEffect(p, Actor(n, job, pc), c);
      && Permitted(IncarnationOf(p), eff)
      && IncarnationOf(ReconcileStep(p, w.nextUid, job, pc, c).0) == Atomic(IncarnationOf(p), w.nextUid, eff)
  {
    if pc.Prune? {
      if p.Some? && PruneKeys(job.current.annotations, job.live) <= p.value.annotations.Keys {
        PruneEffect(p.value.annotations, job.current.annotations, job.live);
      }
    } else if pc.MergeBack? || pc.Recreate? {
    } else {
    }
  }

  /** The pod an action is about, and the operation it stands for. */
  function Subject(w: World, act: Action): (r: Name)
    requires Enabled(w, act)
  {
    match act
    case Spawn(_, a) => a.name
    case Lock(i) => w.actors[i].name
    case Call(i, _) => w.actors[i].name
    case Unlock(i) => w.actors[i].name
    case ExternalDelete(n) => n
    case Vanish(n) => n
    case Annotate(n, _, _) => n
  }

  function EffectOf(w: World, act: Action): (r: Effect)
    requires Enabled(w, act)
  {
    match act
    case Vanish(_) => Drop
    case Call(i, c) => CallEffect(At(w.pods, w.actors[i].name), w.actors[i], c)
    case _ => Nothing
  }

  lemma CallIsAtomic(w: World, a: Actor, c: Choice)
    requires PodsInv(w) && ActorInv(w, a)
    ensures Permitted(IncarnationOf(At(w.pods, a.name)), CallEffect(At(w.pods, a.name), a, c))
    ensures IncarnationOf(ActorStep(At(w.pods, a.name), w.nextUid, a, c).0) ==
            Atomic(IncarnationOf(At(w.pods, a.name)), w.nextUid, CallEffect(At(w.pods, a.name), a, c))
  {
    match a.job
    case Publish(t, base) => PublishEffect(At(w.pods, a.name), w, t, base, a.pc, c, a.name);
    case Unpublish(t) => UnpublishEffect(At(w.pods, a.name), w, t, a.pc, c, a.name);
    case Reconcile(_, _, _) => ReconcileEffect(At(w.pods, a.name), w, a.job, a.pc, c, a.name);
  }

  /** Refinement: although every write is a patch computed from an earlier read, each action changes the
      reference set of its pod as one permitted atomic operation does, and leaves every other pod alone.
      So within one incarnation no update of another actor is ever lost. */
  lemma WritesAreAtomic(w: World, act: Action, n: Name)
    requires Reachable(w) && Enabled(w, act)
    ensures n == Subject(w, act) ==> Permitted(IncarnationOf(At(w.pods, n)), EffectOf(w, act))
    ensures IncarnationOf(At(Apply(w, act).pods, n)) ==
            if n == Subject(w, act) then Atomic(IncarnationOf(At(w.pods, n)), w.nextUid, EffectOf(w, act))
            else IncarnationOf(At(w.pods, n))
  {
    ReachableInv(w);
    InvWritesAreAtomic(w, act, n);
  }

  lemma CallWritesAreAtomic(w: World, act: Action, n: Name)
    requires Inv(w) && Enabled(w, act) && act.Call?
    ensures n == Subject(w, act) ==> Permitted(IncarnationOf(At(w.pods, n)), EffectOf(w, act))
    ensures IncarnationOf(At(Apply(w, act).pods, n)) ==
            if n == Subject(w, act) then Atomic(IncarnationOf(At(w.pods, n)), w.nextUid, EffectOf(w, act))
            else IncarnationOf(At(w.pods, n))
  {
    var a := w.actors[act.id];
    assert ActorInv(w, a);
    CallIsAtomic(w, a, act.choice);
    ShapeOf(At(w.pods, a.name), w.nextUid, a, act.choice);
  }

  lemma InvWritesAreAtomic(w: World, act: Action, n: Name)
    requires Inv(w) && Enabled(w, act)
    ensures n == Subject(w, act) ==> Permitted(IncarnationOf(At(w.pods, n)), EffectOf(w, act))
    ensures IncarnationOf(At(Apply(w, act).pods, n)) ==
            if n == Subject(w, act) then Atomic(IncarnationOf(At(w.pods, n)), w.nextUid, EffectOf(w, act))
            else IncarnationOf(At(w.pods, n))
  {
    if act.Call? {
      CallWritesAreAtomic(w, act, n);
    } else if act.Annotate? {
      assert Refs(Apply(w, act).pods[act.name].annotations) == Refs(w.pods[act.name].annotations);
    }
  }

  /** Conflict check and all-or-nothing patch: a prune does nothing, or the server had as many references as the
      snapshot and every key to remove, and loses exactly those keys. */
  lemma PruneAllOrNothing(w: World, i: ActorId, c: Choice)
    requires Reachable(w) && Enabled(w, Call(i, c)) && w.actors[i].job.Reconcile? && w.actors[i].pc.Prune?
    ensures var a := w.actors[i];
      var p := At(w.pods, a.name);
      var p' := At(Apply(w, Call(i, c)).pods, a.name);
      var snapshot := a.job.current.annotations;
      var keys := PruneKeys(snapshot, a.job.live);
      || p' == p
      || (&& p.Some? && keys <= p.value.annotations.Keys
          && |Refs(p.value.annotations)| == |Refs(snapshot)|
          && p' == Some(p.value.(annotations := p.value.annotations - keys)))
  {
    ReachableActor(w, i);
  }

  /** A run with keys to remove is inside its check while the server stores another number of references than its
      snapshot shows, or it has given up. */
  ghost predicate InConflict(w: World, i: ActorId) {
    && i in w.actors && w.actors[i].job.Reconcile?
    && PruneKeys(w.actors[i].job.current.annotations, w.actors[i].job.live) != {}
    && (w.actors[i].pc.Release? || w.actors[i].pc.Done? ||
        ((w.actors[i].pc.Inspect? || w.actors[i].pc.Compare?) &&
         |RefsOf(At(w.pods, w.actors[i].name))| != |Refs(w.actors[i].job.current.annotations)|))
  }

  lemma KeysNeedRefs(a: Annotations, live: set<string>)
    requires PruneKeys(a, live) != {}
    ensures |Refs(a)| != 0
  {
    if LiveRefs(a, live) != {} {
      var t :| t in LiveRefs(a, live);
      assert t in Refs(a);
    } else {
      NoLiveRefs(a, live);
    }
  }

  lemma OwnCallInConflict(w: World, i: ActorId, c: Choice)
    requires InConflict(w, i) && Enabled(w, Call(i, c))
    ensures InConflict(Apply(w, Call(i, c)), i)
  {
    var a := w.actors[i];
    var p := At(w.pods, a.name);
    assert ActorStep(p, w.nextUid, a, c) == CheckStep(p, a.job, a.pc, c);
    if a.pc.Inspect? {
    } else {
    }
  }

  /** Nobody else changes the references of a pod whose lock the run holds, unless the pod goes. */
  lemma OthersInConflict(w: World, act: Action, i: ActorId)
    requires Inv(w) && Enabled(w, act) && InConflict(w, i) && (act.Call? ==> act.id != i)
    requires w.actors[i].pc.Inspect? || w.actors[i].pc.Compare?
    ensures |RefsOf(At(Apply(w, act).pods, w.actors[i].name))| != |Refs(w.actors[i].job.current.annotations)|
  {
    var n := w.actors[i].name;
    InvWritesAreAtomic(w, act, n);
    if act.Call? && w.actors[act.id].name == n {
      PairApart(w, i, act.id);
      assert ActorInv(w, w.actors[act.id]);
      assert EffectOf(w, act) == Nothing;
    } else if act == Vanish(n) {
      KeysNeedRefs(w.actors[i].job.current.annotations, w.actors[i].job.live);
    } else {
      assert n == Subject(w, act) ==> EffectOf(w, act) == Nothing;
    }
  }

  lemma ConflictStays(w: World, act: Action, i: ActorId)
    requires Inv(w) && Enabled(w, act) && InConflict(w, i)
    ensures InConflict(Apply(w, act), i)
  {
    if act.Call? && act.id == i {
      OwnCallInConflict(w, i, act.choice);
    } else if w.actors[i].pc.Inspect? || w.actors[i].pc.Compare? {
      OthersInConflict(w, act, i);
      OtherActionKeepsPc(w, act, i);
    } else if act != Unlock(i) {
      OtherActionKeepsPc(w, act, i);
    }
  }

  lemma OtherActionKeepsPc(w: World, act: Action, i: ActorId)
    requires Enabled(w, act) && i in w.actors && !Waiting(w.actors[i].pc)
    requires act != Unlock(i) && (act.Call? ==> act.id != i)
    ensures i in Apply(w, act).actors && Apply(w, act).actors[i] == w.actors[i]
  {
  }

  /** A different number of references ends the run: whatever happens afterwards, it never patches, stamps or deletes,
      and never gets to its handler. */
  lemma {:induction false} ConflictEndsRun(w: World, run: seq<Action>, w': World, i: ActorId)
    requires Inv(w) && Leads(w, run, w') && InConflict(w, i)
    ensures i in w'.actors
    ensures w'.actors[i].pc.Inspect? || w'.actors[i].pc.Compare? || w'.actors[i].pc.Release? || w'.actors[i].pc.Done?
    decreases |run|
  {
    if run != [] {
      ConflictStays(w, run[0], i);
      StepKeeps(w, run[0]);
      ConflictEndsRun(Apply(w, run[0]), run[1..], w', i);
    }
  }

  /** A stored reference goes only with its pod, by its own unpublisher, or by a reconciler that saw it
      in its snapshot and misses its app pod in its own pod list. */
  lemma ReferenceSurvives(w: World, act: Action, n: Name, t: Target)
    requires Reachable(w) && Enabled(w, act)
    requires t in RefsOf(At(w.pods, n)) && t !in RefsOf(At(Apply(w, act).pods, n))
    ensures act == Vanish(n) || (act.Call? && w.actors[act.id].name == n)
    ensures act.Call? ==>
      || (w.actors[act.id].job == Unpublish(t) && w.actors[act.id].pc.RemoveKey?)
      || (w.actors[act.id].job.Reconcile? && w.actors[act.id].pc.Prune? &&
          t in DeadRefs(w.actors[act.id].job.current.annotations, w.actors[act.id].job.live))
  {
    WritesAreAtomic(w, act, n);
  }

  /** The action drops pod `n`, removes `t` from it or prunes `t`. */
  ghost predicate TakesReference(w: World, act: Action, n: Name, t: Target)
    requires Enabled(w, act)
  {
    Subject(w, act) == n &&
    match EffectOf(w, act)
    case Drop => true
    case Remove(u) => u == t
    case PruneDead(d) => t in d
    case _ => false
  }

  ghost predicate Undisturbed(w: World, run: seq<Action>, n: Name, t: Target)
    decreases |run|
  {
    run != [] && Enabled(w, run[0]) ==>
      !TakesReference(w, run[0], n, t) && Undisturbed(Apply(w, run[0]), run[1..], n, t)
  }

  lemma StepKeepsReference(w: World, act: Action, n: Name, t: Target)
    requires Inv(w) && Enabled(w, act) && t in RefsOf(At(w.pods, n)) && !TakesReference(w, act, n, t)
    ensures t in RefsOf(At(Apply(w, act).pods, n))
  {
    InvWritesAreAtomic(w, act, n);
  }

  /** The whole life of a reference: it is there as long as no action of the run takes it away. */
  lemma {:induction false} ReferencePersists(w: World, run: seq<Action>, w': World, n: Name, t: Target)
    requires Inv(w) && Leads(w, run, w') && t in RefsOf(At(w.pods, n))
    requires Undisturbed(w, run, n, t)
    ensures t in RefsOf(At(w'.pods, n))
    decreases |run|
  {
    if run != [] {
      StepKeepsReference(w, run[0], n, t);
      StepKeeps(w, run[0]);
      ReferencePersists(Apply(w, run[0]), run[1..], w', n, t);
    }
  }
}
