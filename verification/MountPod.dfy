/** A mount pod as the API server stores it: its annotations, the references kept in them, and the patches
    the driver sends.

    `GetReferenceKey` (a truncated SHA-256) is abstract and injective: the key of target `t` is `RefKey(t)`.
    Durations and time stamps are kept decoded; a value the driver cannot decode is a `Text`. */
module MountPod {
  import opened Seqs
  import opened Wrappers
  import TargetPath

  type Target = string
  type Name = string

  datatype Key = RefKey(target: Target) | DelayTimeKey | DeleteAtKey | OtherKey(key: string)
  datatype Value = Text(text: string) | Duration(ns: int) | Stamp(sec: int)
  type Annotations = map<Key, Value>

  /** One incarnation of a named pod; the API server never reuses a `uid`. */
  datatype Pod = Pod(uid: nat, terminating: bool, finalizer: bool, annotations: Annotations)

  // ---------- references ----------

  /** The test every reader makes: the key of an annotation is the reference key of its value. */
  predicate HasRef(a: Annotations, t: Target) {
    RefKey(t) in a && a[RefKey(t)] == Text(t)
  }

  function Refs(a: Annotations): (r: set<Target>)
    ensures forall t :: t in r <==> HasRef(a, t)
  {
    set k | k in a && k.RefKey? && a[k] == Text(k.target) :: k.target
  }

  /** A reference key with a foreign value is no reference. */
  lemma RefsAre(a: Annotations, t: Target)
    ensures t in Refs(a) <==> RefKey(t) in a && a[RefKey(t)] == Text(t)
  {
  }

  /** The references of a pod that may be gone. */
  function RefsOf(p: Option<Pod>): (r: set<Target>) {
    if p.Some? then Refs(p.value.annotations) else {}
  }

  /** No reference key carries a foreign value. */
  ghost predicate WellFormed(a: Annotations) {
    forall t :: RefKey(t) in a ==> a[RefKey(t)] == Text(t)
  }

  /** The annotations of `a` that are references (`existTargets` of the reconciler). */
  function RefMap(a: Annotations): (m: Annotations)
    ensures forall t :: HasRef(m, t) <==> HasRef(a, t)
  {
    map k | k in a && k.RefKey? && a[k] == Text(k.target) :: a[k]
  }

  // ---------- JSON Patch (RFC 6902) ----------

  /** A list of `remove` operations: applied in order, all of them or none (section 5). */
  function PatchRemove(a: Annotations, keys: seq<Key>): (r: Option<Annotations>) {
    if keys == [] then Some(a)
    else if keys[0] !in a then None
    else PatchRemove(a - {keys[0]}, keys[1..])
  }

  ghost function KeySet(keys: seq<Key>): (r: set<Key>) {
    set k | k in keys
  }

  /** A remove list takes effect exactly when it repeats no key and every key is there,
      and then it removes those keys and no other. */
  lemma {:induction false} PatchRemoveAllOrNothing(a: Annotations, keys: seq<Key>)
    ensures PatchRemove(a, keys).Some? <==> Distinct(keys) && KeySet(keys) <= a.Keys
    ensures PatchRemove(a, keys).Some? ==> PatchRemove(a, keys).value == a - KeySet(keys)
  {
    if keys == [] {
      assert a - KeySet(keys) == a;
    } else {
      var rest := keys[1..];
      PatchRemoveAllOrNothing(a - {keys[0]}, rest);
      assert keys == [keys[0]] + rest;
      assert KeySet(keys) == {keys[0]} + KeySet(rest);
      if keys[0] in a {
        if Distinct(keys) && KeySet(keys) <= a.Keys {
          assert forall i :: 0 <= i < |rest| ==> rest[i] == keys[i + 1];
          assert KeySet(rest) <= (a - {keys[0]}).Keys;
        }
        if Distinct(rest) && KeySet(rest) <= (a - {keys[0]}).Keys {
          assert keys[0] !in KeySet(rest);
          forall i, j | 0 <= i < j < |keys| ensures keys[i] != keys[j] {
            if i == 0 {
              assert rest[j - 1] in KeySet(rest);
            } else {
              assert keys[i] == rest[i - 1] && keys[j] == rest[j - 1];
            }
          }
        }
        assert a - KeySet(keys) == (a - {keys[0]}) - KeySet(rest);
      } else {
        assert keys[0] in KeySet(keys);
      }
    }
  }

  // ---------- writes ----------

  /** What `AddRefOfMount` writes back: the new reference, and no delete-at stamp. */
  function WithRef(a: Annotations, t: Target): (r: Annotations)
    ensures Refs(r) == Refs(a) + {t}
    ensures DeleteAtKey !in r
    ensures WellFormed(a) ==> WellFormed(r)
    ensures forall k :: k != RefKey(t) && k != DeleteAtKey ==> ((k in r <==> k in a) && (k in a ==> r[k] == a[k]))
  {
    a[RefKey(t) := Text(t)] - {DeleteAtKey}
  }

  function WithStamp(a: Annotations, sec: int): (r: Annotations)
    ensures Refs(r) == Refs(a)
    ensures WellFormed(a) ==> WellFormed(r)
  {
    a[DeleteAtKey := Stamp(sec)]
  }

  /** Adding the references of `lost` to the annotations of a pod that was created elsewhere. */
  function WithRefsOf(a: Annotations, lost: Annotations): (r: Annotations)
    ensures Refs(r) == Refs(a) + Refs(lost)
    ensures WellFormed(a) ==> WellFormed(r)
    ensures forall k: Key :: !k.RefKey? ==> ((k in r <==> k in a) && (k in a ==> r[k] == a[k]))
  {
    var r := a + RefMap(lost);
    assert forall t :: HasRef(r, t) <==> HasRef(a, t) || HasRef(lost, t) by {
      forall t ensures HasRef(r, t) <==> HasRef(a, t) || HasRef(lost, t) {
        if RefKey(t) in RefMap(lost) { assert HasRef(RefMap(lost), t); }
      }
    }
    r
  }

  /** Removing keys removes exactly the references stored under them. */
  lemma RefsAfterRemove(a: Annotations, keys: set<Key>)
    ensures Refs(a - keys) == Refs(a) - (set k | k in keys && k.RefKey? :: k.target)
    ensures WellFormed(a) ==> WellFormed(a - keys)
  {
    var gone := set k | k in keys && k.RefKey? :: k.target;
    forall t ensures t in Refs(a - keys) <==> t in Refs(a) && t !in gone {
      assert t in gone <==> RefKey(t) in keys;
    }
  }

  lemma RefsAfterRemoveOne(a: Annotations, t: Target)
    ensures Refs(a - {RefKey(t)}) == Refs(a) - {t}
  {
    RefsAfterRemove(a, {RefKey(t)});
    assert (set k | k in {RefKey(t)} && k.RefKey? :: k.target) == {t};
  }

  // ---------- checkAnnotations: what a snapshot asks for ----------

  /** The references whose app pod is not in the reconciler's own pod list. */
  function DeadRefs(a: Annotations, live: set<string>): (r: set<Target>) {
    set t | t in Refs(a) && TargetPath.GetPodUid(t) !in live
  }

  function LiveRefs(a: Annotations, live: set<string>): (r: set<Target>) {
    set t | t in Refs(a) && TargetPath.GetPodUid(t) in live
  }

  /** `delAnnotations`: the dead references, and a delete-at stamp beside live ones. */
  function PruneKeys(a: Annotations, live: set<string>): (r: set<Key>) {
    (set t | t in DeadRefs(a, live) :: RefKey(t)) +
    (if LiveRefs(a, live) != {} && DeleteAtKey in a && a[DeleteAtKey] != Text("") then {DeleteAtKey} else {})
  }

  /** The references that a prune takes out are the dead ones. */
  lemma PrunedTargets(a: Annotations, live: set<string>)
    ensures (set k | k in PruneKeys(a, live) && k.RefKey? :: k.target) == DeadRefs(a, live)
  {
    forall t | t in DeadRefs(a, live) ensures RefKey(t) in PruneKeys(a, live) {
    }
  }

  /** Whether the reference of a target counts as live depends on the app pod in its path. */
  lemma LiveByUid(a: Annotations, live: set<string>, prefix: string, uid: string, pv: string)
    requires prefix != "" && TargetPath.ProperTarget(prefix, uid, pv)
    requires TargetPath.CsiTarget(prefix, uid, pv) in Refs(a)
    ensures TargetPath.CsiTarget(prefix, uid, pv) in LiveRefs(a, live) <==> uid in live
    ensures TargetPath.CsiTarget(prefix, uid, pv) in DeadRefs(a, live) <==> uid !in live
  {
    TargetPath.TargetParts(prefix, uid, pv);
  }

  lemma NoLiveRefs(a: Annotations, live: set<string>)
    requires LiveRefs(a, live) == {}
    ensures DeadRefs(a, live) == Refs(a)
    ensures PruneKeys(a, live) == {} <==> Refs(a) == {}
  {
    forall t | t in Refs(a) ensures t in DeadRefs(a, live) && RefKey(t) in PruneKeys(a, live) {
      assert t !in LiveRefs(a, live);
    }
  }

  lemma SameSize<T>(a: set<T>, b: set<T>)
    requires a <= b && |a| == |b|
    ensures a == b
  {
    assert |b - a| == |b| - |a|;
  }

  /** Equal counts are enough: a prune that takes out all references of a snapshot leaves none. */
  lemma PruneAll(a: Annotations, snapshot: Annotations, live: set<string>)
    requires WellFormed(a) && LiveRefs(snapshot, live) == {} && |Refs(a)| == |Refs(snapshot)|
    requires PruneKeys(snapshot, live) <= a.Keys
    ensures Refs(a - PruneKeys(snapshot, live)) == {}
  {
    var keys := PruneKeys(snapshot, live);
    NoLiveRefs(snapshot, live);
    RefsAfterRemove(a, keys);
    assert forall t :: t in Refs(snapshot) ==> RefKey(t) in keys;
    SameSize(Refs(snapshot), Refs(a));
    assert (set k | k in keys && k.RefKey? :: k.target) == Refs(snapshot);
  }

  // ---------- delayed delete ----------

  const SECOND := 1_000_000_000

  datatype Verdict = DeleteNow | AddStamp(sec: int) | Wait

  /** `ShouldDelay`: what to do with an idle pod at time `now` (nanoseconds). The stamp keeps whole seconds. */
  function ShouldDelay(a: Annotations, now: int): (r: Verdict) {
    if DelayTimeKey !in a then DeleteNow
    else if DeleteAtKey !in a then
      if a[DelayTimeKey].Duration? then AddStamp((now + a[DelayTimeKey].ns) / SECOND) else DeleteNow
    else if !a[DeleteAtKey].Stamp? then DeleteNow
    else if now < a[DeleteAtKey].sec * SECOND then Wait
    else DeleteNow
  }

  /** A delay is configured and the pod is not stamped. */
  predicate StampsFirst(a: Annotations) {
    DelayTimeKey in a && DeleteAtKey !in a && a[DelayTimeKey].Duration?
  }

  /** No delay is configured, or it or its stamp cannot be decoded. */
  predicate NeverDelays(a: Annotations) {
    DelayTimeKey !in a || (if DeleteAtKey in a then !a[DeleteAtKey].Stamp? else !a[DelayTimeKey].Duration?)
  }

  /** No delay is set; or there is no stamp and the delay cannot be decoded; or the stamp cannot be decoded; or it is
      not in the future. */
  predicate DelayOver(a: Annotations, now: int) {
    || DelayTimeKey !in a
    || (DeleteAtKey !in a && !a[DelayTimeKey].Duration?)
    || (DeleteAtKey in a && !a[DeleteAtKey].Stamp?)
    || (DeleteAtKey in a && a[DeleteAtKey].Stamp? && a[DeleteAtKey].sec * SECOND <= now)
  }

  /** `at` is in the second `sec`. */
  predicate CutOff(sec: int, at: int) {
    sec * SECOND <= at < (sec + 1) * SECOND
  }

  lemma VerdictIs(a: Annotations, now: int)
    ensures ShouldDelay(a, now) == DeleteNow <==> DelayOver(a, now)
    ensures ShouldDelay(a, now).AddStamp? <==> StampsFirst(a)
    ensures StampsFirst(a) ==> CutOff(ShouldDelay(a, now).sec, now + a[DelayTimeKey].ns)
  {
  }

  lemma NeverDelaysIff(a: Annotations)
    ensures NeverDelays(a) <==> forall now :: ShouldDelay(a, now) == DeleteNow
    ensures NeverDelays(a) <==> forall now :: DelayOver(a, now)
  {
    if !NeverDelays(a) {
      var now := if DeleteAtKey in a then a[DeleteAtKey].sec * SECOND - 1 else 0;
      assert ShouldDelay(a, now) != DeleteNow && !DelayOver(a, now);
    }
  }
}
