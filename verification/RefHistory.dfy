/** Conservation: the references of one incarnation are the targets added and not removed since. */
module RefHistory {
  import opened MountPod
  import opened PodOps

  /** A successful `AddRefOfMount` or a successful removal by `UmountTarget`. */
  datatype RefOp = Added(target: Target) | Dropped(target: Target)

  function After(a: Annotations, op: RefOp): (r: Annotations) {
    match op
    case Added(t) => AddRef(a, t)
    case Dropped(t) => DropRef(a, t)
  }

  function AfterAll(a: Annotations, ops: seq<RefOp>): (r: Annotations) {
    if ops == [] then a else After(AfterAll(a, ops[..|ops| - 1]), ops[|ops| - 1])
  }

  ghost predicate NotDroppedFrom(ops: seq<RefOp>, i: nat, t: Target) {
    forall j :: i <= j < |ops| ==> ops[j] != Dropped(t)
  }

  ghost predicate AddedAndNotDropped(ops: seq<RefOp>, t: Target) {
    exists i :: 0 <= i < |ops| && ops[i] == Added(t) && NotDroppedFrom(ops, i, t)
  }

  /** Adding twice counts once, and removing what is not there changes nothing. */
  lemma {:induction false} Conservation(a: Annotations, ops: seq<RefOp>, t: Target)
    requires WellFormed(a)
    ensures WellFormed(AfterAll(a, ops))
    ensures t in Refs(AfterAll(a, ops)) <==>
      AddedAndNotDropped(ops, t) || (t in Refs(a) && NotDroppedFrom(ops, 0, t))
  {
    if ops != [] {
      var n := |ops| - 1;
      var front := ops[..n];
      var b := AfterAll(a, front);
      Conservation(a, front, t);
      RefsAfterRemove(b, {RefKey(ops[n].target)});
      RefsAfterRemoveOne(b, ops[n].target);
      assert t in Refs(AfterAll(a, ops)) <==> ops[n] == Added(t) || (t in Refs(b) && ops[n] != Dropped(t));
      HistoryGrows(ops, t);
    }
  }

  lemma HistoryGrows(ops: seq<RefOp>, t: Target)
    requires ops != []
    ensures var front, last := ops[..|ops| - 1], ops[|ops| - 1];
      && (AddedAndNotDropped(ops, t) <==> last == Added(t) || (AddedAndNotDropped(front, t) && last != Dropped(t)))
      && (NotDroppedFrom(ops, 0, t) <==> NotDroppedFrom(front, 0, t) && last != Dropped(t))
  {
    var n := |ops| - 1;
    var front := ops[..n];
    if ops[n] == Added(t) {
      assert NotDroppedFrom(ops, n, t);
    }
    if AddedAndNotDropped(front, t) && ops[n] != Dropped(t) {
      var i :| 0 <= i < |front| && front[i] == Added(t) && NotDroppedFrom(front, i, t);
      assert ops[i] == Added(t);
      forall j | i <= j < |ops| ensures ops[j] != Dropped(t) {
        if j < n { assert ops[j] == front[j]; }
      }
      assert NotDroppedFrom(ops, i, t);
    }
    if AddedAndNotDropped(ops, t) && ops[n] != Added(t) {
      var i :| 0 <= i < |ops| && ops[i] == Added(t) && NotDroppedFrom(ops, i, t);
      assert front[i] == Added(t);
      assert NotDroppedFrom(front, i, t);
    }
    if NotDroppedFrom(front, 0, t) && ops[n] != Dropped(t) {
      forall j | 0 <= j < |ops| ensures ops[j] != Dropped(t) {
        if j < n { assert ops[j] == front[j]; }
      }
    }
    if NotDroppedFrom(ops, 0, t) {
      assert forall j :: 0 <= j < n ==> front[j] == ops[j];
    }
  }

  /** Everything that is neither a reference nor the delete-at stamp stays as it was. */
  lemma {:induction false} OthersUntouched(a: Annotations, ops: seq<RefOp>, k: Key)
    requires !k.RefKey? && k != DeleteAtKey
    ensures k in AfterAll(a, ops) <==> k in a
    ensures k in a ==> AfterAll(a, ops)[k] == a[k]
  {
    if ops != [] {
      OthersUntouched(a, ops[..|ops| - 1], k);
    }
  }
}
