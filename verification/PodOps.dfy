/** What the operations on one stored mount pod do when the caller holds the lock of the pod
    and the server does not change under it. */
module PodOps {
  import opened MountPod
  import opened Wrappers

  /** `AddRefOfMount` on the annotations of a live pod. */
  function AddRef(a: Annotations, t: Target): (r: Annotations) {
    if RefKey(t) in a then a else WithRef(a, t)
  }

  /** The reference removal of `UmountTarget`. */
  function DropRef(a: Annotations, t: Target): (r: Annotations) {
    if RefKey(t) in a then a - {RefKey(t)} else a
  }

  /** `JUmount`: an idle pod is deleted, gets its delete-at stamp, or is left waiting. */
  function Retire(p: Pod, now: int): (r: Pod) {
    if Refs(p.annotations) != {} then p
    else match ShouldDelay(p.annotations, now)
      case Wait => p
      case AddStamp(sec) => p.(annotations := WithStamp(p.annotations, sec))
      case DeleteNow => p.(terminating := true)
  }

  /** The pruning part of `checkAnnotations`: `None` stands for a conflict or a refused patch. */
  function PruneStored(current: Pod, stored: Pod, live: set<string>): (r: Option<Pod>) {
    var keys := PruneKeys(current.annotations, live);
    if keys == {} then Some(stored)
    else if |Refs(stored.annotations)| != |Refs(current.annotations)| || !(keys <= stored.annotations.Keys) then None
    else Some(stored.(annotations := stored.annotations - keys))
  }

  /** The rest of `checkAnnotations`: it judges by its snapshot, and looks at the stored pod before a delete only. */
  function RetireSeen(current: Pod, stored: Pod, referenced: bool, now: int): (r: Pod) {
    if referenced || current.terminating then stored
    else match ShouldDelay(current.annotations, now)
      case Wait => stored
      case AddStamp(sec) => stored.(annotations := WithStamp(stored.annotations, sec))
      case DeleteNow => if Refs(stored.annotations) != {} then stored else stored.(terminating := true)
  }

  /** The second half stops with an error only before a delete, when the stored pod has references after all. */
  predicate RetireSucceeds(current: Pod, stored: Pod, referenced: bool, now: int) {
    || referenced || current.terminating
    || ShouldDelay(current.annotations, now) != DeleteNow
    || Refs(stored.annotations) == {}
  }

  /** When `checkAnnotations` ends without an error. */
  predicate CheckSucceeds(current: Pod, stored: Pod, live: set<string>, now: int) {
    match PruneStored(current, stored, live)
    case None => false
    case Some(pruned) => RetireSucceeds(current, pruned, LiveRefs(current.annotations, live) != {}, now)
  }

  function CheckAnnotations(current: Pod, stored: Pod, live: set<string>, now: int): (r: Pod) {
    match PruneStored(current, stored, live)
    case None => stored
    case Some(pruned) => RetireSeen(current, pruned, LiveRefs(current.annotations, live) != {}, now)
  }

  lemma CheckHalves(current: Pod, stored: Pod, pruned: Pod, live: set<string>, now: int)
    requires PruneStored(current, stored, live) == Some(pruned)
    ensures CheckAnnotations(current, stored, live, now) ==
      RetireSeen(current, pruned, LiveRefs(current.annotations, live) != {}, now)
    ensures CheckSucceeds(current, stored, live, now) <==>
      RetireSucceeds(current, pruned, LiveRefs(current.annotations, live) != {}, now)
  {
  }

  // ---------- what these operations do, stated on the annotations ----------

  /** A pod with references stays as it is. A pod without is terminating afterwards exactly when its delay is over; it
      gets a stamp, of whole seconds, exactly when a delay is set and it has none; nothing else changes. */
  lemma RetireEffect(p: Pod, now: int)
    ensures var q := Retire(p, now);
      if Refs(p.annotations) != {} then q == p
      else
        && q.uid == p.uid && q.finalizer == p.finalizer
        && (q.terminating <==> p.terminating || DelayOver(p.annotations, now))
        && (if StampsFirst(p.annotations) then IsStamped(p.annotations, q.annotations, now)
            else q.annotations == p.annotations)
  {
    VerdictIs(p.annotations, now);
  }

  /** `r` is `a` with a stamp for the time when the delay set in `a` is over, cut off to seconds. */
  ghost predicate IsStamped(a: Annotations, r: Annotations, now: int)
    requires StampsFirst(a)
  {
    exists sec: int :: r == a[DeleteAtKey := Stamp(sec)] && CutOff(sec, now + a[DelayTimeKey].ns)
  }

  /** Every other annotation of `a` is in `r`, and no more. */
  predicate SameBut(a: Annotations, r: Annotations, keys: set<Key>) {
    a - keys == r - keys
  }

  lemma DropEffect(a: Annotations, t: Target)
    ensures DropRef(a, t) == a - {RefKey(t)}
    ensures Refs(DropRef(a, t)) == Refs(a) - {t}
  {
    RefsAfterRemoveOne(a, t);
    assert RefKey(t) !in a ==> a - {RefKey(t)} == a;
  }

  lemma AddEffect(a: Annotations, t: Target)
    requires WellFormed(a)
    ensures Refs(AddRef(a, t)) == Refs(a) + {t}
    ensures SameBut(a, AddRef(a, t), {RefKey(t), DeleteAtKey})
    ensures DeleteAtKey in AddRef(a, t) ==> t in Refs(a)
  {
    if RefKey(t) in a {
      assert t in Refs(a);
      assert Refs(a) + {t} == Refs(a);
    }
  }

  /** A prune is refused exactly when there is something to remove and the numbers of references differ or a key is
      missing. */
  lemma PruneRefusedIff(current: Pod, stored: Pod, live: set<string>)
    ensures PruneStored(current, stored, live).None? <==>
      && PruneKeys(current.annotations, live) != {}
      && (|| |Refs(stored.annotations)| != |Refs(current.annotations)|
          || exists k :: k in PruneKeys(current.annotations, live) && k !in stored.annotations)
  {
  }

  /** Otherwise it takes out the snapshot's dead references, and of all other annotations at most the stamp. */
  lemma PruneStoredEffect(current: Pod, stored: Pod, live: set<string>)
    ensures PruneStored(current, stored, live).Some? ==>
      var r := PruneStored(current, stored, live).value;
      && r == stored.(annotations := r.annotations)
      && Refs(r.annotations) == Refs(stored.annotations) - DeadRefs(current.annotations, live)
      && (forall k: Key :: !k.RefKey? && k != DeleteAtKey ==> SameAt(k, stored.annotations, r.annotations))
  {
    if PruneStored(current, stored, live).Some? {
      var keys, a := PruneKeys(current.annotations, live), stored.annotations;
      PruneStoredIs(current, stored, live);
      PrunedTargets(current.annotations, live);
      RefsAfterRemove(a, keys);
      forall k: Key | !k.RefKey? && k != DeleteAtKey ensures SameAt(k, a, a - keys) {
        assert k !in keys;
      }
    }
  }

  lemma PruneStoredIs(current: Pod, stored: Pod, live: set<string>)
    requires PruneStored(current, stored, live).Some?
    ensures PruneStored(current, stored, live).value ==
      stored.(annotations := stored.annotations - PruneKeys(current.annotations, live))
  {
    if PruneKeys(current.annotations, live) == {} {
      assert stored.annotations - {} == stored.annotations;
    }
  }

  /** `checkAnnotations` on the pod as it is stored: exactly the references of listed app pods remain; the pod is
      terminating afterwards exactly when none remains and its delay is over, and it gets a stamp exactly when none
      remains, a delay is set and it has no stamp. */
  lemma CheckEffect(p: Pod, live: set<string>, now: int)
    requires WellFormed(p.annotations)
    ensures var q := CheckAnnotations(p, p, live, now);
      && q.uid == p.uid && q.finalizer == p.finalizer
      && Refs(q.annotations) == LiveRefs(p.annotations, live)
      && (q.terminating <==> p.terminating || (LiveRefs(p.annotations, live) == {} && DelayOver(p.annotations, now)))
      && (forall k: Key :: !k.RefKey? && k != DeleteAtKey ==> SameAt(k, p.annotations, q.annotations))
      && CheckedStamp(p, p, q, live, now)
  {
    CheckPrunes(p, live);
    CheckKeeps(p, p, live, now);
    CheckStamps(p, p, live, now);
    CheckDeletes(p, p, live, now);
    NoneLeft(Refs(p.annotations), DeadRefs(p.annotations, live));
    assert LiveRefs(p.annotations, live) == Refs(p.annotations) - DeadRefs(p.annotations, live);
  }

  predicate SameAt(k: Key, a: Annotations, b: Annotations) {
    (k in a <==> k in b) && (k in a ==> a[k] == b[k])
  }

  /** The stamp after a check: given to a pod whose snapshot is idle with a delay and without a stamp, taken off when
      the snapshot shows it beside live references, else kept. */
  predicate CheckedStamp(current: Pod, stored: Pod, q: Pod, live: set<string>, now: int) {
    var a := current.annotations;
    if PruneStored(current, stored, live).None? then SameAt(DeleteAtKey, stored.annotations, q.annotations)
    else if LiveRefs(a, live) != {} && DeleteAtKey in a && a[DeleteAtKey] != Text("") then
      DeleteAtKey !in q.annotations
    else if LiveRefs(a, live) == {} && !current.terminating && StampsFirst(a) then
      && DeleteAtKey in q.annotations && q.annotations[DeleteAtKey].Stamp?
      && CutOff(q.annotations[DeleteAtKey].sec, now + a[DelayTimeKey].ns)
    else SameAt(DeleteAtKey, stored.annotations, q.annotations)
  }

  lemma CheckStamps(current: Pod, stored: Pod, live: set<string>, now: int)
    ensures CheckedStamp(current, stored, CheckAnnotations(current, stored, live, now), live, now)
  {
    VerdictIs(current.annotations, now);
  }

  lemma SeenKeeps(current: Pod, stored: Pod, referenced: bool, now: int)
    ensures var q := RetireSeen(current, stored, referenced, now);
      && q.uid == stored.uid && q.finalizer == stored.finalizer
      && Refs(q.annotations) == Refs(stored.annotations)
      && q.annotations - {DeleteAtKey} == stored.annotations - {DeleteAtKey}
  {
  }

  /** A check changes nothing but references and the stamp, and of the references only the snapshot's dead ones. */
  lemma CheckKeeps(current: Pod, stored: Pod, live: set<string>, now: int)
    ensures var q, pruned := CheckAnnotations(current, stored, live, now), PruneStored(current, stored, live).Some?;
      && q.uid == stored.uid && q.finalizer == stored.finalizer
      && Refs(q.annotations) ==
           Refs(stored.annotations) - (if pruned then DeadRefs(current.annotations, live) else {})
      && forall k: Key :: !k.RefKey? && k != DeleteAtKey ==> SameAt(k, stored.annotations, q.annotations)
  {
    PruneStoredEffect(current, stored, live);
    match PruneStored(current, stored, live)
    case None =>
    case Some(r) =>
      var q := RetireSeen(current, r, LiveRefs(current.annotations, live) != {}, now);
      SeenKeeps(current, r, LiveRefs(current.annotations, live) != {}, now);
      forall k: Key | !k.RefKey? && k != DeleteAtKey ensures SameAt(k, stored.annotations, q.annotations) {
        SameWithout(k, q.annotations, r.annotations, DeleteAtKey);
        assert SameAt(k, stored.annotations, r.annotations);
      }
  }

  lemma SameWithout(k: Key, a: Annotations, b: Annotations, other: Key)
    requires a - {other} == b - {other} && k != other
    ensures SameAt(k, a, b)
  {
    assert k in a <==> k in a - {other};
    assert k in b <==> k in b - {other};
    assert k in a ==> a[k] == (a - {other})[k];
    assert k in b ==> b[k] == (b - {other})[k];
  }

  lemma CheckPrunes(p: Pod, live: set<string>)
    requires WellFormed(p.annotations)
    ensures PruneStored(p, p, live).Some?
    ensures Refs(PruneStored(p, p, live).value.annotations) == LiveRefs(p.annotations, live)
  {
    var a := p.annotations;
    forall k | k in PruneKeys(a, live) ensures k in a {
      if k != DeleteAtKey {
        assert k.target in DeadRefs(a, live);
      }
    }
    PruneStoredEffect(p, p, live);
    assert Refs(a) - DeadRefs(a, live) == LiveRefs(a, live);
  }

  /** On any snapshot: the pod comes to be terminating exactly when the prune was not refused, the snapshot shows it
      alive, without live references and with its delay over, and no reference is left stored. */
  lemma CheckDeletes(current: Pod, stored: Pod, live: set<string>, now: int)
    ensures CheckAnnotations(current, stored, live, now).terminating <==>
      || stored.terminating
      || (&& PruneStored(current, stored, live).Some?
          && !current.terminating && LiveRefs(current.annotations, live) == {} && DelayOver(current.annotations, now)
          && Refs(stored.annotations) <= DeadRefs(current.annotations, live))
  {
    PruneStoredEffect(current, stored, live);
    VerdictIs(current.annotations, now);
    NoneLeft(Refs(stored.annotations), DeadRefs(current.annotations, live));
  }

  /** It ends with an error exactly when the prune is refused, or when it would have to delete a pod that has references
      after all. */
  lemma CheckFails(current: Pod, stored: Pod, live: set<string>, now: int)
    ensures !CheckSucceeds(current, stored, live, now) <==>
      || PruneStored(current, stored, live).None?
      || (&& !current.terminating && LiveRefs(current.annotations, live) == {} && DelayOver(current.annotations, now)
          && !(Refs(stored.annotations) <= DeadRefs(current.annotations, live)))
  {
    PruneStoredEffect(current, stored, live);
    VerdictIs(current.annotations, now);
    NoneLeft(Refs(stored.annotations), DeadRefs(current.annotations, live));
  }

  lemma NoneLeft<T>(a: set<T>, b: set<T>)
    ensures a - b == {} <==> a <= b
  {
    assert forall x :: x in a && x !in b ==> x in a - b;
  }
}
