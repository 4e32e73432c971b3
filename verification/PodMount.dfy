/** The operations of the driver on the API server, as they run under the lock of a pod. Every call may fail;
    the specifications are the functions of `PodOps`. */
module PodMount {
  import opened MountPod
  import opened PodOps
  import opened Seqs
  import opened Wrappers
  import TargetPath

  datatype ApiError = NotFound | Conflict | Other

  predicate IsLive(pods: map<Name, Pod>, name: Name) {
    name in pods && !pods[name].terminating
  }

  predicate IsIdle(pods: map<Name, Pod>, name: Name) {
    IsLive(pods, name) && Refs(pods[name].annotations) == {}
  }

  /** A terminating pod has gone. */
  predicate HasGone(before: map<Name, Pod>, after: map<Name, Pod>, name: Name) {
    name in before && before[name].terminating && after == before - {name}
  }

  /** The pods of the mount namespace. Unless the server is reliable, any call may fail without effect. */
  class ApiServer {
    const reliable: bool
    var pods: map<Name, Pod>
    var nextUid: nat

    constructor (pods: map<Name, Pod>, nextUid: nat, reliable: bool)
      ensures this.pods == pods && this.nextUid == nextUid && this.reliable == reliable
    {
      this.pods, this.nextUid, this.reliable := pods, nextUid, reliable;
    }

    method GetPod(name: Name) returns (r: Result<Pod, ApiError>)
      ensures r.Ok? ==> name in pods && r.value == pods[name]
      ensures r == Err(NotFound) ==> name !in pods
      ensures reliable ==> r == if name in pods then Ok(pods[name]) else Err(NotFound)
    {
      var fails: bool := *;
      if fails && !reliable {
        return Err(Other);
      }
      r := if name in pods then Ok(pods[name]) else Err(NotFound);
    }

    /** While a caller waits, a terminating pod may go. */
    method Sleep(name: Name)
      modifies this`pods
      ensures pods == old(pods) || HasGone(old(pods), pods, name)
    {
      var goes: bool := *;
      if goes && name in pods && pods[name].terminating {
        pods := pods - {name};
      }
    }

    method CreatePod(name: Name, annotations: Annotations) returns (r: Result<(), ApiError>)
      modifies this
      ensures r.Ok? ==> name !in old(pods) && nextUid == old(nextUid) + 1
      ensures r.Ok? ==>
        pods == old(pods)[name := Pod(old(nextUid), false, true, annotations)]
      ensures r.Err? ==> pods == old(pods) && nextUid == old(nextUid)
      ensures reliable ==> (r.Ok? <==> name !in old(pods))
    {
      var fails: bool := *;
      if fails && !reliable {
        return Err(Other);
      }
      if name in pods {
        return Err(Conflict);
      }
      pods, nextUid := pods[name := Pod(nextUid, false, true, annotations)], nextUid + 1;
      r := Ok(());
    }

    /** A JSON Patch `replace` of the whole annotation map. */
    method ReplaceAnnotations(name: Name, annotations: Annotations) returns (r: Result<(), ApiError>)
      modifies this`pods
      ensures r.Ok? ==> name in old(pods) && pods == old(pods)[name := old(pods)[name].(annotations := annotations)]
      ensures reliable ==> r == if name in old(pods) then Ok(()) else Err(NotFound)
      ensures r.Err? ==> pods == old(pods)
    {
      var fails: bool := *;
      if fails && !reliable {
        return Err(Conflict);
      }
      if name !in pods {
        return Err(NotFound);
      }
      pods := pods[name := pods[name].(annotations := annotations)];
      r := Ok(());
    }

    /** A JSON Patch with one `remove` per key. */
    method RemoveAnnotations(name: Name, keys: seq<Key>) returns (r: Result<(), ApiError>)
      modifies this`pods
      ensures r.Ok? ==> name in old(pods) && Distinct(keys) && KeySet(keys) <= old(pods)[name].annotations.Keys
      ensures r.Ok? ==>
        pods == old(pods)[name := old(pods)[name].(annotations := old(pods)[name].annotations - KeySet(keys))]
      ensures reliable && name in old(pods) && Distinct(keys) && KeySet(keys) <= old(pods)[name].annotations.Keys ==>
        r.Ok?
      ensures r.Err? ==> pods == old(pods)
    {
      var fails: bool := *;
      if fails && !reliable {
        return Err(Conflict);
      }
      if name !in pods {
        return Err(NotFound);
      }
      PatchRemoveAllOrNothing(pods[name].annotations, keys);
      match PatchRemove(pods[name].annotations, keys)
      case None => r := Err(Other);
      case Some(a) =>
        pods := pods[name := pods[name].(annotations := a)];
        r := Ok(());
    }

    /** A strategic merge patch that sets the delete-at stamp. */
    method AddDeleteAt(name: Name, sec: int) returns (r: Result<(), ApiError>)
      modifies this`pods
      ensures r.Ok? ==> name in old(pods)
      ensures reliable ==> (r.Ok? <==> name in old(pods))
      ensures r.Ok? ==>
        pods == old(pods)[name := old(pods)[name].(annotations := WithStamp(old(pods)[name].annotations, sec))]
      ensures r.Err? ==> pods == old(pods)
    {
      var fails: bool := *;
      if fails && !reliable {
        return Err(Other);
      }
      if name !in pods {
        return Err(NotFound);
      }
      pods := pods[name := pods[name].(annotations := WithStamp(pods[name].annotations, sec))];
      r := Ok(());
    }

    method DeletePod(name: Name) returns (r: Result<(), ApiError>)
      modifies this`pods
      ensures r.Ok? ==> name in old(pods) && pods == old(pods)[name := old(pods)[name].(terminating := true)]
      ensures reliable ==> (r.Ok? <==> name in old(pods))
      ensures r.Err? ==> pods == old(pods)
    {
      var fails: bool := *;
      if fails && !reliable {
        return Err(Other);
      }
      if name !in pods {
        return Err(NotFound);
      }
      pods := pods[name := pods[name].(terminating := true)];
      r := Ok(());
    }
  }

  /** `retry.DefaultBackoff.Steps` */
  const RETRIES := 4

  /** `GetRef`: one pass over the annotations. */
  method GetRef(a: Annotations) returns (count: nat)
    ensures count == |Refs(a)|
  {
    count := 0;
    var rest := a.Keys;
    ghost var counted: set<Target> := {};
    while rest != {}
      invariant rest <= a.Keys
      invariant counted == set k | k in a.Keys - rest && k.RefKey? && a[k] == Text(k.target) :: k.target
      invariant count == |counted|
      decreases rest
    {
      var k :| k in rest;
      rest := rest - {k};
      if k.RefKey? && a[k] == Text(k.target) {
        assert k.target !in counted;
        count := count + 1;
        counted := counted + {k.target};
      }
    }
    assert counted == Refs(a);
  }

  function Referenced(p: Pod, t: Target): (r: Pod) {
    p.(annotations := AddRef(p.annotations, t))
  }

  function Unreferenced(p: Pod, t: Target): (r: Pod) {
    p.(annotations := DropRef(p.annotations, t))
  }

  /** A pod as it was read before the lock was taken. */
  datatype Candidate = Candidate(name: Name, pod: Pod)

  function Candidates(exact: Option<Candidate>, listed: seq<Candidate>): (r: seq<Candidate>) {
    (match exact case None => [] case Some(c) => [c]) + listed
  }

  predicate IsFirstWith(candidates: seq<Candidate>, t: Target, i: int) {
    && 0 <= i < |candidates|
    && RefKey(t) in candidates[i].pod.annotations
    && forall j :: 0 <= j < i ==> RefKey(t) !in candidates[j].pod.annotations
  }

  ghost predicate RetiredAfter(before: map<Name, Pod>, after: map<Name, Pod>, name: Name, t: Target, now: int) {
    name in before && after == before[name := Retire(Unreferenced(before[name], t), now)]
  }

  /** 60 seconds of polls, one every half second */
  const POLLS := 120

  class PodMounter {
    const server: ApiServer

    constructor (server: ApiServer)
      ensures this.server == server
    {
      this.server := server;
    }

    /** Adds a reference to a live pod; a terminating one is refused. */
    method AddRefOfMount(target: Target, name: Name) returns (r: Result<(), ApiError>)
      modifies server`pods
      ensures r.Ok? ==> name in old(server.pods) && !old(server.pods)[name].terminating
      ensures r.Ok? ==> server.pods == old(server.pods)[name := Referenced(old(server.pods)[name], target)]
      ensures r.Err? ==> server.pods == old(server.pods)
      ensures server.reliable ==> (r.Ok? <==> name in old(server.pods) && !old(server.pods)[name].terminating)
    {
      r := Err(Conflict);
      var attempt := 0;
      while attempt < RETRIES && r == Err(Conflict)
        invariant attempt == 0 ==> r == Err(Conflict)
        invariant attempt > 0 && server.reliable ==>
          if IsLive(old(server.pods), name) then r.Ok? else r.Err? && r.error != Conflict
        invariant r.Err? ==> server.pods == old(server.pods)
        invariant r.Ok? ==> name in old(server.pods) && !old(server.pods)[name].terminating
        invariant r.Ok? ==> server.pods == old(server.pods)[name := Referenced(old(server.pods)[name], target)]
      {
        attempt := attempt + 1;
        var got := server.GetPod(name);
        match got
        case Err(e) => r := Err(e);
        case Ok(exist) =>
          if exist.terminating {
            r := Err(Other);
          } else if RefKey(target) in exist.annotations {
            assert Referenced(exist, target) == exist;
            assert server.pods == server.pods[name := exist];
            r := Ok(());
          } else {
            var annotation := exist.annotations;
            annotation := annotation[RefKey(target) := Text(target)];
            annotation := annotation - {DeleteAtKey};
            r := server.ReplaceAnnotations(name, annotation);
          }
      }
    }

    /** Waits for a deleted pod to go, creates a missing one with the reference, or adds the reference. */
    method CreateOrAddRef(target: Target, name: Name, base: Annotations) returns (r: Result<(), ApiError>)
      modifies server
      ensures r.Ok? ==> server.pods == old(server.pods)[name :=
        if IsLive(old(server.pods), name) then Referenced(old(server.pods)[name], target)
        else Pod(old(server.nextUid), false, true, base[RefKey(target) := Text(target)])]
      ensures r.Err? ==> server.pods == old(server.pods) || HasGone(old(server.pods), server.pods, name)
      ensures server.reliable && (name in old(server.pods) ==> !old(server.pods)[name].terminating) ==> r.Ok?
    {
      var polls := 0;
      while polls < POLLS
        invariant server.nextUid == old(server.nextUid)
        invariant server.pods == old(server.pods) || HasGone(old(server.pods), server.pods, name)
        invariant polls > 0 && server.reliable ==> name in old(server.pods) && old(server.pods)[name].terminating
      {
        polls := polls + 1;
        var got := server.GetPod(name);
        if got.Ok? && got.value.terminating {
          server.Sleep(name);
          continue;
        }
        if got == Err(NotFound) {
          r := server.CreatePod(name, base[RefKey(target) := Text(target)]);
          return;
        }
        if got.Err? {
          return Err(got.error);
        }
        r := AddRefOfMount(target, name);
        return;
      }
      r := Err(Other);
    }

    /** The part of `UmountTarget` that takes the reference of an unmounted target away. */
    method RemoveRef(target: Target, name: Name) returns (r: Result<(), ApiError>)
      modifies server`pods
      ensures r.Ok? ==> server.pods == if name in old(server.pods)
        then old(server.pods)[name := Unreferenced(old(server.pods)[name], target)]
        else old(server.pods)
      ensures r.Err? ==> server.pods == old(server.pods)
      ensures server.reliable ==> r.Ok?
    {
      var pod := server.GetPod(name);
      if pod == Err(NotFound) {
        return Ok(());
      }
      if pod.Err? {
        return Err(pod.error);
      }
      r := Err(Conflict);
      var attempt := 0;
      while attempt < RETRIES && r == Err(Conflict)
        invariant if attempt == 0 then r == Err(Conflict) else server.reliable ==> r.Ok?
        invariant r.Err? ==> server.pods == old(server.pods)
        invariant r.Ok? ==> server.pods == old(server.pods)[name := Unreferenced(old(server.pods)[name], target)]
      {
        attempt := attempt + 1;
        var got := server.GetPod(name);
        match got
        case Err(e) => r := Err(e);
        case Ok(po) =>
          assert KeySet([RefKey(target)]) == {RefKey(target)};
          if RefKey(target) !in po.annotations {
            assert server.pods == server.pods[name := po];
            r := Ok(());
          } else {
            r := server.RemoveAnnotations(name, [RefKey(target)]);
          }
      }
    }

    method GetMountRef(name: Name) returns (r: Result<nat, ApiError>)
      ensures r.Ok? ==> r.value == if name in server.pods then |Refs(server.pods[name].annotations)| else 0
      ensures server.reliable ==> r.Ok?
    {
      var got := server.GetPod(name);
      match got
      case Err(e) => r := if e == NotFound then Ok(0) else Err(e);
      case Ok(pod) =>
        var n := GetRef(pod.annotations);
        r := Ok(n);
    }

    /** Retires a pod without references: deletes it, or stamps it when a delay is configured. */
    method JUmount(name: Name, now: int) returns (r: Result<(), ApiError>)
      modifies server`pods
      ensures r.Ok? ==> server.pods == if name in old(server.pods)
        then old(server.pods)[name := Retire(old(server.pods)[name], now)] else old(server.pods)
      ensures r.Ok? && IsIdle(old(server.pods), name) ==>
        (server.pods[name].terminating <==> DelayOver(old(server.pods)[name].annotations, now))
      ensures r.Err? ==> server.pods == old(server.pods)
      ensures server.reliable ==> r.Ok?
    {
      r := Err(Conflict);
      var attempt := 0;
      while attempt < RETRIES && r == Err(Conflict)
        invariant if attempt == 0 then r == Err(Conflict) else server.reliable ==> r.Ok?
        invariant r.Err? ==> server.pods == old(server.pods)
        invariant r.Ok? ==> server.pods == if name in old(server.pods)
          then old(server.pods)[name := Retire(old(server.pods)[name], now)] else old(server.pods)
      {
        attempt := attempt + 1;
        r := RetireOnce(name, now);
      }
      if name in old(server.pods) {
        RetireEffect(old(server.pods)[name], now);
      }
    }

    method RetireOnce(name: Name, now: int) returns (r: Result<(), ApiError>)
      modifies server`pods
      ensures r.Ok? ==> server.pods == if name in old(server.pods)
        then old(server.pods)[name := Retire(old(server.pods)[name], now)] else old(server.pods)
      ensures r.Err? ==> server.pods == old(server.pods)
      ensures server.reliable ==> r.Ok?
    {
      var got := server.GetPod(name);
      if got.Err? {
        return if got.error == NotFound then Ok(()) else Err(got.error);
      }
      var po := got.value;
      assert server.pods == server.pods[name := po];
      var refs := GetRef(po.annotations);
      if refs != 0 {
        return Ok(());
      }
      match ShouldDelay(po.annotations, now)
      case Wait => r := Ok(());
      case AddStamp(sec) => r := server.AddDeleteAt(name, sec);
      case DeleteNow => r := server.DeletePod(name);
    }

    /** The choice of `JfsUnmount` before it takes the lock: the pod of the exact name if it was found, then the
        listed ones; the first of them that carries the key of the target. */
    method FindMountPod(exact: Option<Candidate>, listed: seq<Candidate>, target: Target) returns (name: Option<Name>)
      ensures var all := Candidates(exact, listed);
        if name.None? then forall i :: 0 <= i < |all| ==> RefKey(target) !in all[i].pod.annotations
        else exists i :: IsFirstWith(all, target, i) && name.value == all[i].name
    {
      var mountPods: seq<Candidate> := [];
      if exact.Some? {
        mountPods := mountPods + [exact.value];
      }
      mountPods := mountPods + listed;
      assert mountPods == Candidates(exact, listed);
      for i := 0 to |mountPods|
        invariant forall j :: 0 <= j < i ==> RefKey(target) !in mountPods[j].pod.annotations
      {
        if RefKey(target) in mountPods[i].pod.annotations {
          assert IsFirstWith(mountPods, target, i);
          return Some(mountPods[i].name);
        }
      }
      name := None;
    }

    /** `JfsUnmount` in pod mode: without a pod that carries the target, nothing happens. */
    method Unmount(exact: Option<Candidate>, listed: seq<Candidate>, target: Target, now: int)
      returns (r: Result<(), ApiError>)
      modifies server`pods
      ensures (forall c :: c in Candidates(exact, listed) ==> RefKey(target) !in c.pod.annotations) ==>
        r.Ok? && server.pods == old(server.pods)
      ensures r.Ok? && server.pods != old(server.pods) ==>
        exists i :: IsFirstWith(Candidates(exact, listed), target, i) &&
          RetiredAfter(old(server.pods), server.pods, Candidates(exact, listed)[i].name, target, now)
      ensures server.reliable ==> r.Ok?
    {
      var name := FindMountPod(exact, listed, target);
      if name.None? {
        return Ok(());
      }
      ghost var all := Candidates(exact, listed);
      ghost var i :| IsFirstWith(all, target, i) && name.value == all[i].name;
      assert all[i] in all;
      r := JfsUnmount(target, name.value, now);
      assert r.Ok? && server.pods != old(server.pods) ==>
        RetiredAfter(old(server.pods), server.pods, all[i].name, target, now);
    }

    /** `JfsUnmount` in pod mode, from the lock on: removes the reference, and retires the pod when it was the last. */
    method JfsUnmount(target: Target, name: Name, now: int) returns (r: Result<(), ApiError>)
      modifies server`pods
      ensures r.Ok? ==> server.pods == if name in old(server.pods)
        then old(server.pods)[name := Retire(Unreferenced(old(server.pods)[name], target), now)]
        else old(server.pods)
      ensures r.Ok? && IsLive(old(server.pods), name) ==>
        (server.pods[name].terminating <==>
          Refs(old(server.pods)[name].annotations) <= {target} && DelayOver(old(server.pods)[name].annotations, now))
      ensures r.Err? && server.pods != old(server.pods) ==>
        name in old(server.pods) &&
        server.pods == old(server.pods)[name := Unreferenced(old(server.pods)[name], target)]
      ensures server.reliable ==> r.Ok?
    {
      r := RemoveRef(target, name);
      if r.Err? {
        return;
      }
      label removed:
      var refs := GetMountRef(name);
      match refs
      case Err(e) => r := Err(e);
      case Ok(n) =>
        if n == 0 {
          r := JUmount(name, now);
        } else {
          assert server.pods == server.pods[name := server.pods[name]];
        }
        if name in old(server.pods) {
          UnreferencedEffect(old(server.pods)[name], target, now);
        }
    }
  }

  /** Losing its last reference, a live pod is terminating exactly when its delay is over. */
  lemma UnreferencedEffect(p: Pod, t: Target, now: int)
    ensures Retire(Unreferenced(p, t), now).terminating <==>
      p.terminating || (Refs(p.annotations) <= {t} && DelayOver(p.annotations, now))
  {
    DropEffect(p.annotations, t);
    RetireEffect(Unreferenced(p, t), now);
    NoneLeft(Refs(p.annotations), {t});
  }

  lemma KeysGrow(keys: seq<Key>, k: Key)
    requires Distinct(keys) && k !in KeySet(keys)
    ensures Distinct(keys + [k]) && KeySet(keys + [k]) == KeySet(keys) + {k}
  {
    forall i | 0 <= i < |keys| ensures keys[i] != k {
      assert keys[i] in KeySet(keys);
    }
  }

  ghost function DeadKeys(a: Annotations, live: set<string>, seen: set<Key>): (r: set<Key>) {
    set k | k in seen && k.RefKey? && k.target in DeadRefs(a, live)
  }

  ghost function LiveTargets(a: Annotations, live: set<string>, seen: set<Key>): (r: set<Target>) {
    set k | k in seen && k.RefKey? && k.target in LiveRefs(a, live) :: k.target
  }

  predicate IsReference(a: Annotations, k: Key)
    requires k in a
  {
    k.RefKey? && a[k] == Text(k.target)
  }

  lemma SeenMore(a: Annotations, live: set<string>, seen: set<Key>, k: Key)
    requires k in a && k !in seen
    ensures !IsReference(a, k) ==>
      && DeadKeys(a, live, seen + {k}) == DeadKeys(a, live, seen)
      && LiveTargets(a, live, seen + {k}) == LiveTargets(a, live, seen)
    ensures IsReference(a, k) && TargetPath.GetPodUid(k.target) !in live ==>
      && k !in DeadKeys(a, live, seen) && DeadKeys(a, live, seen + {k}) == DeadKeys(a, live, seen) + {k}
      && LiveTargets(a, live, seen + {k}) == LiveTargets(a, live, seen)
    ensures IsReference(a, k) && TargetPath.GetPodUid(k.target) in live ==>
      && k.target !in LiveTargets(a, live, seen)
      && LiveTargets(a, live, seen + {k}) == LiveTargets(a, live, seen) + {k.target}
      && DeadKeys(a, live, seen + {k}) == DeadKeys(a, live, seen)
  {
  }

  lemma AllSeen(a: Annotations, live: set<string>)
    ensures LiveTargets(a, live, a.Keys) == LiveRefs(a, live)
    ensures DeadKeys(a, live, a.Keys) == set t | t in DeadRefs(a, live) :: RefKey(t)
  {
    forall t | t in LiveRefs(a, live) ensures t in LiveTargets(a, live, a.Keys) {
      assert RefKey(t) in a.Keys;
    }
    forall t | t in DeadRefs(a, live) ensures RefKey(t) in DeadKeys(a, live, a.Keys) {
      assert RefKey(t) in a.Keys;
    }
  }

  lemma StoredTwice(pods: map<Name, Pod>, name: Name, first: Pod, second: Pod)
    ensures pods[name := first][name := second] == pods[name := second]
  {
  }

  class PodDriver {
    const server: ApiServer

    constructor (server: ApiServer)
      ensures this.server == server
    {
      this.server := server;
    }

    /** One pass over the snapshot: the keys of the dead references and the number of live ones. */
    method Scan(a: Annotations, live: set<string>) returns (keys: seq<Key>, existTargets: nat)
      ensures Distinct(keys) && KeySet(keys) == set t | t in DeadRefs(a, live) :: RefKey(t)
      ensures existTargets == |LiveRefs(a, live)|
    {
      keys, existTargets := [], 0;
      var rest := a.Keys;
      ghost var seen: set<Key> := {};
      while rest != {}
        invariant seen + rest == a.Keys && seen !! rest
        invariant Distinct(keys) && KeySet(keys) == DeadKeys(a, live, seen)
        invariant existTargets == |LiveTargets(a, live, seen)|
        decreases rest
      {
        var k :| k in rest;
        SeenMore(a, live, seen, k);
        rest := rest - {k};
        seen := seen + {k};
        if IsReference(a, k) {
          if TargetPath.GetPodUid(k.target) !in live {
            KeysGrow(keys, k);
            keys := keys + [k];
          } else {
            existTargets := existTargets + 1;
          }
        }
      }
      AllSeen(a, live);
    }

    /** The keys to remove and the number of live references. */
    method Inspect(a: Annotations, live: set<string>) returns (keys: seq<Key>, existTargets: nat)
      ensures Distinct(keys) && KeySet(keys) == PruneKeys(a, live)
      ensures existTargets == |LiveRefs(a, live)|
    {
      keys, existTargets := Scan(a, live);
      if existTargets != 0 && DeleteAtKey in a && a[DeleteAtKey] != Text("") {
        assert DeleteAtKey !in KeySet(keys);
        KeysGrow(keys, DeleteAtKey);
        keys := keys + [DeleteAtKey];
      }
    }

    /** `checkAnnotations` on a snapshot that may be stale; with `r.Err?` it stopped on the way. */
    method CheckAnnotations(name: Name, current: Pod, live: set<string>, now: int) returns (r: Result<(), ApiError>)
      modifies server`pods
      ensures r.Ok? ==> server.pods == if name in old(server.pods)
        then old(server.pods)[name := PodOps.CheckAnnotations(current, old(server.pods)[name], live, now)]
        else old(server.pods)
      ensures r.Err? && server.pods != old(server.pods) ==>
        name in old(server.pods) && PruneStored(current, old(server.pods)[name], live).Some? &&
        server.pods == old(server.pods)[name := PruneStored(current, old(server.pods)[name], live).value]
      ensures server.reliable && name in old(server.pods) ==>
        (r.Ok? <==> CheckSucceeds(current, old(server.pods)[name], live, now))
      ensures r.Ok? && name in old(server.pods) && current == old(server.pods)[name] ==>
        WellFormed(current.annotations) ==>
        && Refs(server.pods[name].annotations) == LiveRefs(current.annotations, live)
        && (server.pods[name].terminating <==>
             current.terminating || (LiveRefs(current.annotations, live) == {} && DelayOver(current.annotations, now)))
    {
      if name in server.pods && current == server.pods[name] && WellFormed(current.annotations) {
        CheckEffect(current, live, now);
      }
      var keys, existTargets := Inspect(current.annotations, live);
      assert (existTargets != 0) == (LiveRefs(current.annotations, live) != {});
      r := PruneKeysOf(name, current, keys, live);
      if r.Err? {
        return;
      }
      ghost var pruned := server.pods;
      r := RetireUnlessReferenced(name, current, existTargets, now);
      if name in old(server.pods) {
        CheckHalves(current, old(server.pods)[name], pruned[name], live, now);
        StoredTwice(old(server.pods), name, pruned[name],
                    RetireSeen(current, pruned[name], LiveRefs(current.annotations, live) != {}, now));
      }
    }

    /** The first half of `checkAnnotations`: nothing to remove, or conflict check and patch. */
    method PruneKeysOf(name: Name, current: Pod, keys: seq<Key>, ghost live: set<string>)
      returns (r: Result<(), ApiError>)
      requires Distinct(keys) && KeySet(keys) == PruneKeys(current.annotations, live)
      modifies server`pods
      ensures r.Err? ==> server.pods == old(server.pods)
      ensures r.Ok? && name !in old(server.pods) ==> server.pods == old(server.pods)
      ensures r.Ok? && name in old(server.pods) ==> PruneStored(current, old(server.pods)[name], live).Some?
      ensures r.Ok? && name in old(server.pods) ==>
        server.pods == old(server.pods)[name := PruneStored(current, old(server.pods)[name], live).value]
      ensures server.reliable && name in old(server.pods) ==>
        (r.Ok? <==> PruneStored(current, old(server.pods)[name], live).Some?)
    {
      if |keys| == 0 {
        assert KeySet(keys) == {};
        if name in server.pods {
          assert server.pods == server.pods[name := server.pods[name]];
        }
        return Ok(());
      }
      assert keys[0] in KeySet(keys);
      var latest := server.GetPod(name);
      if latest.Err? {
        return Err(latest.error);
      }
      var stored := GetRef(latest.value.annotations);
      var seen := GetRef(current.annotations);
      if stored != seen {
        return Err(Conflict);
      }
      r := server.RemoveAnnotations(name, keys);
    }

    /** The second half of `checkAnnotations`. */
    method RetireUnlessReferenced(name: Name, current: Pod, existTargets: nat, now: int)
      returns (r: Result<(), ApiError>)
      modifies server`pods
      ensures r.Err? ==> server.pods == old(server.pods)
      ensures r.Ok? ==> server.pods == if name in old(server.pods)
        then old(server.pods)[name := RetireSeen(current, old(server.pods)[name], existTargets != 0, now)]
        else old(server.pods)
      ensures server.reliable && name in old(server.pods) ==>
        (r.Ok? <==> RetireSucceeds(current, old(server.pods)[name], existTargets != 0, now))
    {
      r := Ok(());
      if name in server.pods {
        assert server.pods == server.pods[name := server.pods[name]];
      }
      if existTargets == 0 && !current.terminating {
        match ShouldDelay(current.annotations, now)
        case Wait =>
        case AddStamp(sec) => r := server.AddDeleteAt(name, sec);
        case DeleteNow =>
          var latest := server.GetPod(name);
          if latest.Err? {
            return Err(latest.error);
          }
          var refs := GetRef(latest.value.annotations);
          if refs != 0 {
            return Err(Conflict);
          }
          r := server.DeletePod(name);
      }
    }
  }
}
