/** Runs of the protocol with one pod, one reconciler and up to two publishers, built step by step. */
module ProtocolStages {
  import opened MountPod
  import opened Wrappers
  import opened Protocol
  import opened ProtocolRecreate
  import PodLocks

  /** The pod's name, the reconciler's job (actor 0), the target of a publisher (actor 1), and that of actor 2, which
      leaves the target or else publishes it; new pods come with the delay. */
  datatype Cast = Cast(name: Name, job: Job, first: Target, late: Target, delay: Option<int>, leaves: bool)

  function BaseOf(k: Cast): (base: Annotations) {
    if k.delay.Some? then map[DelayTimeKey := Duration(k.delay.value)] else map[]
  }

  /** Who stands where; a publisher without a program counter has not come yet. */
  datatype Stage = Stage(
    pod: Option<Pod>,
    next: nat,
    holder: Option<ActorId>,
    run: Pc,
    first: Option<Pc>,
    late: Option<Pc>,
    gone: map<(Name, nat), set<Target>>)

  function JobOf(k: Cast, who: ActorId): (job: Job) {
    if who == 0 then k.job
    else if who == 1 then Publish(k.first, BaseOf(k))
    else if k.leaves then Unpublish(k.late)
    else Publish(k.late, BaseOf(k))
  }

  predicate Present(s: Stage, who: ActorId) {
    who == 0 || (who == 1 && s.first.Some?) || (who == 2 && s.late.Some?)
  }

  function PcOf(s: Stage, who: ActorId): (pc: Pc)
    requires Present(s, who)
  {
    if who == 0 then s.run else if who == 1 then s.first.value else s.late.value
  }

  function WithPc(s: Stage, who: ActorId, pc: Pc): (r: Stage)
    requires who <= 2
  {
    if who == 0 then s.(run := pc) else if who == 1 then s.(first := Some(pc)) else s.(late := Some(pc))
  }

  function Person(k: Cast, s: Stage, who: ActorId): (a: Actor)
    requires Present(s, who)
  {
    Actor(k.name, JobOf(k, who), PcOf(s, who))
  }

  function ActorsAt(k: Cast, s: Stage): (actors: map<ActorId, Actor>)
    ensures forall i :: i in actors <==> Present(s, i)
    ensures forall i :: i in actors ==> actors[i] == Person(k, s, i)
  {
    map[0 := Person(k, s, 0)] +
    (if Present(s, 1) then map[1 := Person(k, s, 1)] else map[]) +
    (if Present(s, 2) then map[2 := Person(k, s, 2)] else map[])
  }

  function WorldAt(k: Cast, s: Stage): (w: World) {
    World(
      if s.pod.Some? then map[k.name := s.pod.value] else map[],
      s.next,
      if s.holder.Some? then map[PodLocks.Stripe(k.name) := s.holder.value] else map[],
      ActorsAt(k, s),
      s.gone)
  }

  // ---------- traces ----------

  /** Action number `i` of a trace leads from its world to the next. */
  ghost predicate StepAt(worlds: seq<World>, actions: seq<Action>, i: int) {
    && 0 <= i < |actions| && i + 1 < |worlds|
    && Enabled(worlds[i], actions[i]) && worlds[i + 1] == Apply(worlds[i], actions[i])
  }

  /** A run written with all its worlds. */
  ghost predicate Trace(worlds: seq<World>, actions: seq<Action>, w: World) {
    && |worlds| == |actions| + 1 && Initial(worlds[0]) && worlds[|actions|] == w
    && forall i :: 0 <= i < |actions| ==> StepAt(worlds, actions, i)
  }

  ghost predicate Traced(w: World) {
    exists worlds, actions :: Trace(worlds, actions, w)
  }

  ghost predicate Reached(k: Cast, s: Stage) {
    Traced(WorldAt(k, s))
  }

  lemma TracedNext(w: World, act: Action)
    requires Traced(w) && Enabled(w, act)
    ensures Traced(Apply(w, act))
  {
    var worlds, actions :| Trace(worlds, actions, w);
    var worlds', actions' := worlds + [Apply(w, act)], actions + [act];
    forall i | 0 <= i < |actions'| ensures StepAt(worlds', actions', i) {
      if i < |actions| {
        assert StepAt(worlds, actions, i);
      }
    }
    assert Trace(worlds', actions', Apply(w, act));
  }

  lemma {:induction false} TraceReachable(worlds: seq<World>, actions: seq<Action>, w: World)
    requires Trace(worlds, actions, w)
    ensures Reachable(w)
  {
    var n := |actions|;
    if n == 0 {
      assert Leads(w, [], w);
    } else {
      assert StepAt(worlds, actions, n - 1);
      var before, earlier := worlds[..n], actions[..n - 1];
      forall i | 0 <= i < n - 1 ensures StepAt(before, earlier, i) {
        assert StepAt(worlds, actions, i);
      }
      TraceReachable(before, earlier, worlds[n - 1]);
      ReachableNext(worlds[n - 1], actions[n - 1]);
    }
  }

  /** What a trace reaches is reachable. */
  lemma Arrives(k: Cast, s: Stage)
    requires Reached(k, s)
    ensures Reachable(WorldAt(k, s))
  {
    var worlds, actions :| Trace(worlds, actions, WorldAt(k, s));
    TraceReachable(worlds, actions, WorldAt(k, s));
  }

  lemma ActorsMove(k: Cast, s: Stage, who: ActorId, pc: Pc)
    requires who <= 2
    ensures ActorsAt(k, WithPc(s, who, pc)) == ActorsAt(k, s)[who := Actor(k.name, JobOf(k, who), pc)]
  {
    var now, moved := ActorsAt(k, WithPc(s, who, pc)), ActorsAt(k, s)[who := Actor(k.name, JobOf(k, who), pc)];
    forall i ensures i in now <==> i in moved {
    }
    forall i | i in now ensures now[i] == moved[i] {
      if i == who {
      } else {
        assert Person(k, WithPc(s, who, pc), i) == Person(k, s, i);
      }
    }
  }

  // ---------- single steps ----------

  lemma CallLeads(w: World, i: ActorId, c: Choice, p: Option<Pod>, pc: Pc)
    requires Traced(w) && Enabled(w, Call(i, c))
    requires ActorStep(At(w.pods, w.actors[i].name), w.nextUid, w.actors[i], c) == (p, pc)
    ensures Traced(SetPc(Store(w, w.actors[i].name, p), i, pc))
  {
    TracedNext(w, Call(i, c));
  }

  /** A call that leaves the pod as `p` and the caller at `pc`. */
  lemma Calls(k: Cast, s: Stage, who: ActorId, c: Choice, p: Option<Pod>, pc: Pc)
    requires Reached(k, s) && Present(s, who) && Calling(PcOf(s, who)) && (s.pod.Some? ==> p.Some?)
    requires ActorStep(s.pod, s.next, Person(k, s, who), c) == (p, pc)
    ensures Reached(k, WithPc(s.(pod := p, next := if s.pod.None? && p.Some? then s.next + 1 else s.next), who, pc))
  {
    var w := WorldAt(k, s);
    assert At(w.pods, k.name) == s.pod && w.actors[who] == Person(k, s, who);
    CallLeads(w, who, c, p, pc);
    MovedAt(k, s, who, p, pc);
  }

  lemma CheckCalls(k: Cast, s: Stage, c: Choice, p: Option<Pod>, pc: Pc)
    requires Reached(k, s) && k.job.Reconcile? && CheckPc(s.run) && s.pod.Some? && p.Some?
    requires CheckStep(s.pod, k.job, s.run, c) == (p, pc)
    ensures Reached(k, s.(pod := p, run := pc))
  {
    Calls(k, s, 0, c, p, pc);
  }

  lemma HandlerCalls(k: Cast, s: Stage, c: Choice, p: Option<Pod>, pc: Pc)
    requires Reached(k, s) && k.job.Reconcile? && (s.run.Fetch? || s.run.Unfinalize? || LockedHandlerPc(s.run))
    requires s.pod.Some? <==> p.Some?
    requires HandlerStep(s.pod, s.next, s.run, c) == (p, pc)
    ensures Reached(k, s.(pod := p, run := pc))
  {
    Calls(k, s, 0, c, p, pc);
  }

  lemma PublisherCalls(k: Cast, s: Stage, who: ActorId, c: Choice, p: Option<Pod>, pc: Pc)
    requires Reached(k, s) && 1 <= who <= 2 && Present(s, who) && Calling(PcOf(s, who)) && (s.pod.Some? ==> p.Some?)
    requires JobOf(k, who).Publish?
    requires PublishStep(s.pod, s.next, JobOf(k, who).target, BaseOf(k), PcOf(s, who), c) == (p, pc)
    ensures Reached(k, WithPc(s.(pod := p, next := if s.pod.None? && p.Some? then s.next + 1 else s.next), who, pc))
  {
    Calls(k, s, who, c, p, pc);
  }

  lemma LeaverCalls(k: Cast, s: Stage, c: Choice, p: Option<Pod>, pc: Pc)
    requires Reached(k, s) && k.leaves && s.late.Some? && UnpublishPc(s.late.value) && s.pod.Some? && p.Some?
    requires UnpublishStep(s.pod, k.late, s.late.value, c) == (p, pc)
    ensures Reached(k, s.(pod := p, late := Some(pc)))
  {
    Calls(k, s, 2, c, p, pc);
  }

  lemma MovedAt(k: Cast, s: Stage, who: ActorId, p: Option<Pod>, pc: Pc)
    requires Present(s, who) && (s.pod.Some? ==> p.Some?)
    ensures SetPc(Store(WorldAt(k, s), k.name, p), who, pc) ==
      WorldAt(k, WithPc(s.(pod := p, next := if s.pod.None? && p.Some? then s.next + 1 else s.next), who, pc))
  {
    var s' := s.(pod := p, next := if s.pod.None? && p.Some? then s.next + 1 else s.next);
    StoreAt(k, s, p);
    ActorsMove(k, s', who, pc);
  }

  lemma StoreAt(k: Cast, s: Stage, p: Option<Pod>)
    requires s.pod.Some? ==> p.Some?
    ensures Store(WorldAt(k, s), k.name, p) ==
      WorldAt(k, s.(pod := p, next := if s.pod.None? && p.Some? then s.next + 1 else s.next))
  {
    var s' := s.(pod := p, next := if s.pod.None? && p.Some? then s.next + 1 else s.next);
    assert ActorsAt(k, s') == ActorsAt(k, s);
  }

  lemma Locks(k: Cast, s: Stage, who: ActorId)
    requires Reached(k, s) && Present(s, who) && Waiting(PcOf(s, who)) && s.holder.None?
    ensures Reached(k, WithPc(s.(holder := Some(who)), who, AfterLock(Person(k, s, who))))
  {
    ActorsMove(k, s, who, AfterLock(Person(k, s, who)));
    TracedNext(WorldAt(k, s), Lock(who));
  }

  lemma Unlocks(k: Cast, s: Stage, who: ActorId)
    requires Reached(k, s) && Present(s, who) && s.holder.Some?
    requires PcOf(s, who).Release? || PcOf(s, who).ReleaseToHandle?
    ensures Reached(k, WithPc(s.(holder := None), who, AfterUnlock(Person(k, s, who))))
  {
    ActorsMove(k, s, who, AfterUnlock(Person(k, s, who)));
    assert WorldAt(k, s).locks - {PodLocks.Stripe(k.name)} == map[];
    TracedNext(WorldAt(k, s), Unlock(who));
  }

  lemma Comes(k: Cast, s: Stage, who: ActorId)
    requires Reached(k, s) && 1 <= who <= 2 && !Present(s, who)
    ensures Reached(k, WithPc(s, who, WaitLock))
  {
    assert Refs(BaseOf(k)) == {};
    ActorsMove(k, s, who, WaitLock);
    TracedNext(WorldAt(k, s), Spawn(who, Actor(k.name, JobOf(k, who), WaitLock)));
  }

  lemma IsDeleted(k: Cast, s: Stage)
    requires Reached(k, s) && s.pod.Some?
    ensures Reached(k, s.(pod := Some(s.pod.value.(terminating := true))))
  {
    var s' := s.(pod := Some(s.pod.value.(terminating := true)));
    TracedNext(WorldAt(k, s), ExternalDelete(k.name));
    assert ActorsAt(k, s') == ActorsAt(k, s);
    assert Apply(WorldAt(k, s), ExternalDelete(k.name)) == WorldAt(k, s');
  }

  lemma Vanishes(k: Cast, s: Stage)
    requires Reached(k, s) && s.pod.Some? && s.pod.value.terminating && !s.pod.value.finalizer
    ensures Reached(k, s.(pod := None, gone := s.gone[(k.name, s.pod.value.uid) := Refs(s.pod.value.annotations)]))
  {
    var s' := s.(pod := None, gone := s.gone[(k.name, s.pod.value.uid) := Refs(s.pod.value.annotations)]);
    TracedNext(WorldAt(k, s), Vanish(k.name));
    assert ActorsAt(k, s') == ActorsAt(k, s);
    assert WorldAt(k, s).pods - {k.name} == map[];
  }

  /** A node starts with one pod, and a run is given a version of it. */
  lemma Starts(k: Cast, p: Pod, next: nat)
    requires k.job.Reconcile? && p.uid < next && WellFormed(p.annotations) && (p.finalizer || p.terminating)
    requires k.job.current.uid < next && WellFormed(k.job.current.annotations)
    requires p.uid == k.job.current.uid && k.job.current.terminating ==> p.terminating
    ensures Reached(k, Stage(Some(p), next, None, WaitLock, None, None, map[]))
  {
    var w0 := World(map[k.name := p], next, map[], map[], map[]);
    assert Trace([w0], [], w0);
    TracedNext(w0, Spawn(0, Actor(k.name, k.job, WaitLock)));
    assert ActorsAt(k, Stage(Some(p), next, None, WaitLock, None, None, map[])) ==
      w0.actors[0 := Actor(k.name, k.job, WaitLock)];
  }
}
