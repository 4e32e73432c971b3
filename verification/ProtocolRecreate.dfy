/** Recreating a deleted mount pod: which references survive the change of incarnation. */
module ProtocolRecreate {
  import opened MountPod
  import opened Protocol
  import opened ProtocolInvariant
  import opened ProtocolSafety
  import opened ProtocolTheorems

  /** The handler's own write succeeds. */
  ghost predicate BringsBack(w: World, i: ActorId, c: Choice) {
    && Enabled(w, Call(i, c)) && c.ok && w.actors[i].job.Reconcile?
    && (w.actors[i].pc.Recreate? || (w.actors[i].pc.MergeBack? && w.actors[i].name in w.pods))
  }

  /** The publisher's own write succeeds. */
  ghost predicate Publishes(w: World, i: ActorId, c: Choice) {
    && Enabled(w, Call(i, c)) && c.ok && w.actors[i].job.Publish?
    && (w.actors[i].pc.Create? || (w.actors[i].pc.AddPatch? && w.actors[i].name in w.pods))
  }

  /** Bringing a pod back stores all references that the handler fetched, and keeps those that a publisher gave
      the new incarnation before. */
  lemma RecreateKeepsFetched(w: World, i: ActorId, c: Choice)
    requires Reachable(w) && BringsBack(w, i, c)
    ensures var a := w.actors[i];
      var now := RefsOf(At(Apply(w, Call(i, c)).pods, a.name));
      && (a.name, a.pc.fetched.uid) in w.vanished
      && now == Refs(a.pc.fetched.annotations) + RefsOf(At(w.pods, a.name))
  {
    ReachableActor(w, i);
    WritesAreAtomic(w, Call(i, c), w.actors[i].name);
  }

  /** When the incarnation of the snapshot was deleted before the handler fetched it, bringing it back loses nothing:
      the stored references then cover all that the vanished incarnation had at its end. */
  lemma RecreateLosesNothing(w: World, i: ActorId, c: Choice)
    requires Reachable(w) && BringsBack(w, i, c)
    requires EnteredDeleted(w.actors[i].job, w.actors[i].pc.fetched)
    ensures var a := w.actors[i];
      var now := RefsOf(At(Apply(w, Call(i, c)).pods, a.name));
      && (a.name, a.pc.fetched.uid) in w.vanished
      && w.vanished[(a.name, a.pc.fetched.uid)] <= now
  {
    VanishedIsCovered(w, i);
    RecreateKeepsFetched(w, i, c);
  }

  lemma VanishedIsCovered(w: World, i: ActorId)
    requires Reachable(w) && i in w.actors && (w.actors[i].pc.Recreate? || w.actors[i].pc.MergeBack?)
    requires EnteredDeleted(w.actors[i].job, w.actors[i].pc.fetched)
    ensures var a := w.actors[i];
      (a.name, a.pc.fetched.uid) in w.vanished ==>
        w.vanished[(a.name, a.pc.fetched.uid)] <= Refs(a.pc.fetched.annotations)
  {
    ReachableActor(w, i);
  }

  /** `createOrAddRef` wins or loses the race: its own target is stored when it ends with success,
      and nothing stored before is gone. */
  lemma PublishKeepsOthers(w: World, i: ActorId, c: Choice)
    requires Reachable(w) && Publishes(w, i, c)
    ensures var a := w.actors[i];
      RefsOf(At(Apply(w, Call(i, c)).pods, a.name)) == RefsOf(At(w.pods, a.name)) + {a.job.target}
  {
    WritesAreAtomic(w, Call(i, c), w.actors[i].name);
    ReachableActor(w, i);
  }

  /** While a handler that was entered with its pod deleted is at work, its fetched references cover
      those of the old incarnation at every moment; the snapshot can only be too large. */
  lemma FetchedIsTooLargeAtMost(w: World, i: ActorId)
    requires Reachable(w) && i in w.actors
    requires w.actors[i].pc.Unfinalize? || w.actors[i].pc.WaitLockAgain? || LockedHandlerPc(w.actors[i].pc)
    requires EnteredDeleted(w.actors[i].job, w.actors[i].pc.fetched)
    ensures var a := w.actors[i];
      a.name in w.pods && w.pods[a.name].uid == a.pc.fetched.uid ==>
        w.pods[a.name].terminating && Refs(w.pods[a.name].annotations) <= Refs(a.pc.fetched.annotations)
  {
    ReachableActor(w, i);
  }

  // ---------- the race of a handler and a publisher ----------

  lemma {:induction false} LeadsOn(w0: World, run0: seq<Action>, w: World, run: seq<Action>, w': World)
    requires Leads(w0, run0, w) && Leads(w, run, w')
    ensures Leads(w0, run0 + run, w')
    decreases |run0|
  {
    if run0 == [] {
      assert run0 + run == run;
    } else {
      assert (run0 + run)[1..] == run0[1..] + run;
      LeadsOn(Apply(w0, run0[0]), run0[1..], w, run, w');
    }
  }

  lemma ReachableOn(w: World, run: seq<Action>, w': World)
    requires Reachable(w) && Leads(w, run, w')
    ensures Reachable(w')
  {
    var w0, run0 :| Initial(w0) && Leads(w0, run0, w);
    LeadsOn(w0, run0, w, run, w');
  }

  lemma ReachableNext(w: World, act: Action)
    requires Reachable(w) && Enabled(w, act)
    ensures Reachable(Apply(w, act))
  {
    assert Leads(Apply(w, act), [][..], Apply(w, act));
    assert [act][1..] == [][..];
    ReachableOn(w, [act], Apply(w, act));
  }

  lemma {:induction false} AllPersist(w: World, run: seq<Action>, w': World, n: Name, refs: set<Target>)
    requires Reachable(w) && Leads(w, run, w') && refs <= RefsOf(At(w.pods, n))
    requires forall t :: t in refs ==> Undisturbed(w, run, n, t)
    ensures refs <= RefsOf(At(w'.pods, n))
  {
    ReachableInv(w);
    forall t | t in refs ensures t in RefsOf(At(w'.pods, n)) {
      ReferencePersists(w, run, w', n, t);
    }
  }

  /** The handler (actor i) brings the pod back, later the publisher (actor j) adds to it. */
  lemma HandlerThenPublisher(w: World, i: ActorId, c: Choice, run: seq<Action>, w': World, j: ActorId, c': Choice)
    requires Reachable(w) && BringsBack(w, i, c)
    requires Leads(Apply(w, Call(i, c)), run, w') && Publishes(w', j, c') && w'.actors[j].name == w.actors[i].name
    requires forall t :: t in RefsOf(At(Apply(w, Call(i, c)).pods, w.actors[i].name)) ==>
      Undisturbed(Apply(w, Call(i, c)), run, w.actors[i].name, t)
    ensures var a := w.actors[i];
      var now := RefsOf(At(Apply(w', Call(j, c')).pods, a.name));
      && Refs(a.pc.fetched.annotations) + {w'.actors[j].job.target} <= now
      && (EnteredDeleted(a.job, a.pc.fetched) ==>
           (a.name, a.pc.fetched.uid) in w.vanished && w.vanished[(a.name, a.pc.fetched.uid)] <= now)
  {
    var n := w.actors[i].name;
    var w1 := Apply(w, Call(i, c));
    RecreateKeepsFetched(w, i, c);
    if EnteredDeleted(w.actors[i].job, w.actors[i].pc.fetched) {
      RecreateLosesNothing(w, i, c);
    }
    ReachableNext(w, Call(i, c));
    AllPersist(w1, run, w', n, RefsOf(At(w1.pods, n)));
    ReachableOn(w1, run, w');
    PublishKeepsOthers(w', j, c');
  }

  /** The publisher (actor j) creates the pod anew, later the handler (actor i) merges the old references in. */
  lemma PublisherThenHandler(w: World, j: ActorId, c: Choice, run: seq<Action>, w': World, i: ActorId, c': Choice)
    requires Reachable(w) && Publishes(w, j, c)
    requires Leads(Apply(w, Call(j, c)), run, w') && BringsBack(w', i, c') && w'.actors[i].name == w.actors[j].name
    requires Undisturbed(Apply(w, Call(j, c)), run, w.actors[j].name, w.actors[j].job.target)
    ensures var a := w'.actors[i];
      var now := RefsOf(At(Apply(w', Call(i, c')).pods, a.name));
      && Refs(a.pc.fetched.annotations) + {w.actors[j].job.target} <= now
      && (EnteredDeleted(a.job, a.pc.fetched) ==>
           (a.name, a.pc.fetched.uid) in w'.vanished && w'.vanished[(a.name, a.pc.fetched.uid)] <= now)
  {
    var n := w.actors[j].name;
    var w1 := Apply(w, Call(j, c));
    PublishKeepsOthers(w, j, c);
    ReachableNext(w, Call(j, c));
    AllPersist(w1, run, w', n, {w.actors[j].job.target});
    ReachableOn(w1, run, w');
    RecreateKeepsFetched(w', i, c');
    if EnteredDeleted(w'.actors[i].job, w'.actors[i].pc.fetched) {
      RecreateLosesNothing(w', i, c');
    }
  }
}
