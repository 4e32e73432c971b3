/** Delayed deletion of idle mount pods: runs of publish, unpublish and `checkAnnotations` on one pod, against
    the clock (nanoseconds, UTC). */
module DelayedDelete {
  import opened MountPod
  import opened Wrappers
  import opened PodOps

  datatype Op = Publish(target: Target) | Unpublish(target: Target) | Check(live: set<string>) | Tick(elapsed: nat)

  /** The stored pod with its history: since when it has had no reference, and when its stamp was given. */
  datatype Timed = Timed(pod: Pod, now: int, idleSince: Option<int>, stampedAt: Option<int>)

  function Stamped(a: Annotations): (r: bool) {
    DeleteAtKey in a
  }

  /** History after the stored pod became `p`. */
  function Observe(s: Timed, p: Pod): (r: Timed) {
    Timed(p, s.now,
          if Refs(p.annotations) != {} then None else if s.idleSince.Some? then s.idleSince else Some(s.now),
          if !Stamped(p.annotations) then None else if s.stampedAt.Some? then s.stampedAt else Some(s.now))
  }

  /** One operation; the driver leaves a terminating pod alone. `Check` sees the stored pod itself. */
  function Perform(s: Timed, op: Op): (r: Timed) {
    if op.Tick? then s.(now := s.now + op.elapsed)
    else if s.pod.terminating then s
    else match op
      case Publish(t) => Observe(s, s.pod.(annotations := AddRef(s.pod.annotations, t)))
      case Unpublish(t) =>
        Observe(Observe(s, s.pod.(annotations := DropRef(s.pod.annotations, t))),
                Retire(s.pod.(annotations := DropRef(s.pod.annotations, t)), s.now))
      case Check(live) => Observe(s, CheckAnnotations(s.pod, s.pod, live, s.now))
  }

  function PerformAll(s: Timed, ops: seq<Op>): (r: Timed)
    decreases |ops|
  {
    if ops == [] then s else PerformAll(Perform(s, ops[0]), ops[1..])
  }

  /** A stamp exists only while there is no reference. */
  predicate StampOnlyIdle(a: Annotations) {
    Stamped(a) ==> Refs(a) == {}
  }

  ghost predicate Valid(s: Timed) {
    && WellFormed(s.pod.annotations)
    && StampOnlyIdle(s.pod.annotations)
    && (s.idleSince.Some? <==> Refs(s.pod.annotations) == {})
    && (s.idleSince.Some? ==> s.idleSince.value <= s.now)
    && (s.stampedAt.Some? <==> Stamped(s.pod.annotations))
    && (s.stampedAt.Some? && DelayTimeKey in s.pod.annotations && s.pod.annotations[DelayTimeKey].Duration? ==>
        && s.idleSince.value <= s.stampedAt.value <= s.now
        && s.pod.annotations[DeleteAtKey] == Stamp((s.stampedAt.value + s.pod.annotations[DelayTimeKey].ns) / SECOND))
  }

  /** A pod as it is created: with references and no stamp. */
  ghost predicate Created(s: Timed) {
    && WellFormed(s.pod.annotations) && Refs(s.pod.annotations) != {} && !Stamped(s.pod.annotations)
    && !s.pod.terminating && s.idleSince.None? && s.stampedAt.None?
  }

  lemma PublishValid(s: Timed, t: Target)
    requires Valid(s) && !s.pod.terminating
    ensures Valid(Perform(s, Publish(t)))
    ensures !Stamped(Perform(s, Publish(t)).pod.annotations)
    ensures t in Refs(Perform(s, Publish(t)).pod.annotations)
  {
    var a := AddRef(s.pod.annotations, t);
    assert HasRef(a, t);
    assert t in Refs(a);
  }

  lemma DropValid(s: Timed, t: Target)
    requires Valid(s)
    ensures Valid(Observe(s, s.pod.(annotations := DropRef(s.pod.annotations, t))))
  {
    var a := s.pod.annotations;
    RefsAfterRemove(a, {RefKey(t)});
    RefsAfterRemoveOne(a, t);
  }

  lemma RetireValid(s: Timed)
    requires Valid(s)
    ensures Valid(Observe(s, Retire(s.pod, s.now)))
  {
  }

  /** The reconciler removes exactly the dead references of an up-to-date snapshot. */
  lemma PruneCurrent(p: Pod, live: set<string>)
    requires WellFormed(p.annotations)
    ensures PruneStored(p, p, live).Some?
    ensures WellFormed(PruneStored(p, p, live).value.annotations)
    ensures Refs(PruneStored(p, p, live).value.annotations) == LiveRefs(p.annotations, live)
    ensures PruneStored(p, p, live).value.terminating == p.terminating
    ensures forall k: Key :: !k.RefKey? && k != DeleteAtKey ==>
      (k in PruneStored(p, p, live).value.annotations <==> k in p.annotations)
      && (k in p.annotations ==> PruneStored(p, p, live).value.annotations[k] == p.annotations[k])
  {
    var a := p.annotations;
    var keys := PruneKeys(a, live);
    PrunedTargets(a, live);
    RefsAfterRemove(a, keys);
    assert Refs(a) - DeadRefs(a, live) == LiveRefs(a, live);
    if keys == {} {
      assert DeadRefs(a, live) == {};
    }
  }

  lemma CheckValid(s: Timed, live: set<string>)
    requires Valid(s) && !s.pod.terminating
    ensures Valid(Perform(s, Check(live)))
  {
    PruneCurrent(s.pod, live);
    var a := s.pod.annotations;
    var pruned := PruneStored(s.pod, s.pod, live).value;
    assert Stamped(a) ==> LiveRefs(a, live) == {} && DeadRefs(a, live) == {};
    assert Stamped(a) ==> PruneKeys(a, live) == {};
    assert !Stamped(a) ==> !Stamped(pruned.annotations);
  }

  lemma PerformValid(s: Timed, op: Op)
    requires Valid(s)
    ensures Valid(Perform(s, op))
  {
    if op.Tick? || s.pod.terminating {
    } else {
      match op
      case Publish(t) => PublishValid(s, t);
      case Unpublish(t) =>
        DropValid(s, t);
        RetireValid(Observe(s, s.pod.(annotations := DropRef(s.pod.annotations, t))));
      case Check(live) => CheckValid(s, live);
    }
  }

  /** The delay setting of a pod is never touched. */
  lemma DelayKept(s: Timed, op: Op)
    requires Valid(s)
    ensures DelayTimeKey in Perform(s, op).pod.annotations <==> DelayTimeKey in s.pod.annotations
    ensures DelayTimeKey in s.pod.annotations ==>
      Perform(s, op).pod.annotations[DelayTimeKey] == s.pod.annotations[DelayTimeKey]
  {
    if op.Check? {
      PruneCurrent(s.pod, op.live);
    }
  }

  lemma {:induction false} RunValid(s: Timed, ops: seq<Op>)
    requires Valid(s)
    ensures Valid(PerformAll(s, ops))
    ensures DelayTimeKey in PerformAll(s, ops).pod.annotations <==> DelayTimeKey in s.pod.annotations
    ensures DelayTimeKey in s.pod.annotations ==>
      PerformAll(s, ops).pod.annotations[DelayTimeKey] == s.pod.annotations[DelayTimeKey]
    decreases |ops|
  {
    if ops != [] {
      PerformValid(s, ops[0]);
      DelayKept(s, ops[0]);
      RunValid(Perform(s, ops[0]), ops[1..]);
    }
  }

  /** In every run: no stamp beside a reference, and a publication erases the stamp. */
  lemma StampOnlyWhileIdle(s: Timed, ops: seq<Op>, t: Target)
    requires Created(s)
    ensures StampOnlyIdle(PerformAll(s, ops).pod.annotations)
    ensures !PerformAll(s, ops).pod.terminating ==>
      !Stamped(Perform(PerformAll(s, ops), Publish(t)).pod.annotations)
  {
    RunValid(s, ops);
    if !PerformAll(s, ops).pod.terminating {
      PublishValid(PerformAll(s, ops), t);
    }
  }

  /** A pod with a valid delay `d` is deleted only after it had no reference for `d`, up to the truncation of the
      stamp to whole seconds. */
  lemma DeletedOnlyAfterDelay(s0: Timed, ops: seq<Op>, op: Op, d: int)
    requires Created(s0) && DelayTimeKey in s0.pod.annotations && s0.pod.annotations[DelayTimeKey] == Duration(d)
    requires var s := PerformAll(s0, ops); !s.pod.terminating && Perform(s, op).pod.terminating
    ensures var s := PerformAll(s0, ops);
      s.idleSince.Some? && s.now > s.idleSince.value + d - SECOND && Refs(Perform(s, op).pod.annotations) == {}
  {
    RunValid(s0, ops);
    var s := PerformAll(s0, ops);
    if op.Check? {
      PruneCurrent(s.pod, op.live);
      CheckValid(s, op.live);
    } else if op.Unpublish? {
      DropValid(s, op.target);
      assert DeleteAtKey in DropRef(s.pod.annotations, op.target) <==> DeleteAtKey in s.pod.annotations;
    }
  }

  /** The other way round: a pod that was stamped `d` ago and has had no reference since is deleted by the next check
      or unpublication, whatever app pods are listed. */
  lemma DeletedOnceDelayIsOver(s0: Timed, ops: seq<Op>, op: Op, d: int)
    requires Created(s0) && DelayTimeKey in s0.pod.annotations && s0.pod.annotations[DelayTimeKey] == Duration(d)
    requires var s := PerformAll(s0, ops); s.stampedAt.Some? && s.stampedAt.value + d <= s.now
    requires op.Check? || op.Unpublish?
    ensures Perform(PerformAll(s0, ops), op).pod.terminating
  {
    RunValid(s0, ops);
    var s := PerformAll(s0, ops);
    assert DelayOver(s.pod.annotations, s.now);
    if !s.pod.terminating {
      OverIsDeleted(s, op);
    }
  }

  /** The driver deletes an idle pod whose delay is over, by whatever of its operations comes first. */
  lemma OverIsDeleted(s: Timed, op: Op)
    requires Valid(s) && !s.pod.terminating && (op.Check? || op.Unpublish?)
    requires Refs(s.pod.annotations) == {} && DelayOver(s.pod.annotations, s.now)
    ensures Perform(s, op).pod.terminating
  {
    if op.Check? {
      CheckDeletesIff(s, op.live);
    } else {
      DropEffect(s.pod.annotations, op.target);
      RetireEffect(s.pod.(annotations := DropRef(s.pod.annotations, op.target)), s.now);
    }
  }

  /** An idle pod with a delay and without a stamp gets one by the next check or unpublication, given at that time. */
  lemma IdleIsStamped(s: Timed, op: Op)
    requires Valid(s) && !s.pod.terminating && (op.Check? || op.Unpublish?)
    requires Refs(s.pod.annotations) == {} && StampsFirst(s.pod.annotations)
    ensures Perform(s, op).stampedAt == Some(s.now) && !Perform(s, op).pod.terminating
  {
    VerdictIs(s.pod.annotations, s.now);
    if op.Check? {
      PruneCurrent(s.pod, op.live);
    } else {
      DropEffect(s.pod.annotations, op.target);
    }
  }

  /** With an up-to-date snapshot the reconciler deletes a pod exactly when no live reference is left and
      the delay is absent, undecodable or over. */
  lemma CheckDeletesIff(s: Timed, live: set<string>)
    requires Valid(s) && !s.pod.terminating
    ensures Perform(s, Check(live)).pod.terminating <==>
      LiveRefs(s.pod.annotations, live) == {} && DelayOver(s.pod.annotations, s.now)
  {
    CheckEffect(s.pod, live, s.now);
  }

  // ---------- stale snapshots ----------

  /** The comparison of the counts is enough: a prune that takes out all references of a stale snapshot
      leaves none on the stored pod. */
  lemma PruneOfAllIsComplete(current: Pod, stored: Pod, live: set<string>)
    requires WellFormed(stored.annotations) && LiveRefs(current.annotations, live) == {}
    requires Refs(current.annotations) != {} && PruneStored(current, stored, live).Some?
    ensures Refs(PruneStored(current, stored, live).value.annotations) == {}
  {
    NoLiveRefs(current.annotations, live);
    PruneAll(stored.annotations, current.annotations, live);
  }

  lemma PruneKeepsRule(current: Pod, stored: Pod, live: set<string>)
    requires WellFormed(stored.annotations) && StampOnlyIdle(stored.annotations)
    requires PruneStored(current, stored, live).Some?
    ensures StampOnlyIdle(PruneStored(current, stored, live).value.annotations)
  {
    RefsAfterRemove(stored.annotations, PruneKeys(current.annotations, live));
  }

  /** A stale snapshot breaks the rule in one case only: it shows no reference at all, so that nothing is compared,
      it asks for a stamp, and the stored pod has got a reference meanwhile. */
  lemma StaleStampIff(current: Pod, stored: Pod, live: set<string>, now: int)
    requires WellFormed(stored.annotations) && StampOnlyIdle(stored.annotations)
    ensures !StampOnlyIdle(CheckAnnotations(current, stored, live, now).annotations) <==>
      && Refs(current.annotations) == {} && !current.terminating
      && StampsFirst(current.annotations) && Refs(stored.annotations) != {}
  {
    if PruneStored(current, stored, live).Some? {
      PruneKeepsRule(current, stored, live);
      if LiveRefs(current.annotations, live) == {} {
        NoLiveRefs(current.annotations, live);
        if Refs(current.annotations) != {} {
          PruneOfAllIsComplete(current, stored, live);
        }
      }
    } else if LiveRefs(current.annotations, live) == {} {
      NoLiveRefs(current.annotations, live);
    }
  }
}
