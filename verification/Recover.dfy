/** Re-binding broken targets on a node, without letting the stack of mounts on a target grow or vanish. */
module Recover {
  import opened MountInfo
  import opened ProcessMount
  import opened Strings
  import opened TargetTable
  import opened Wrappers

  const MOUNTS_KEPT := 5

  /** What an earlier look at a target found: its `stat` failed in some way, or it is mounted or not. */
  datatype Status = NotExist | Mounted | NotMount | Corrupt | Unexpected

  type Table = seq<Entry>

  function WithoutTimes(table: Table, target: string, succeeds: nat -> bool, n: nat): (r: Table) {
    if n == 0 then table
    else
      var t := WithoutTimes(table, target, succeeds, n - 1);
      if succeeds(n - 1) then Without(t, target) else t
  }

  /** What happens around one call: is the mount table readable, which unmounts succeed, which directories are
      reachable, and which mount the bind of a directory yields (if any). */
  datatype Outcome = Outcome(
    readable: bool,
    unmounts: nat -> bool,
    reachable: string -> bool,
    bound: string -> Option<Entry>)

  /** One call of the recovery: where the volume is mounted, the target of the app pod, the target to repair (itself
      or one of its sub-paths) as an earlier look at the mount table showed it, and what happens. */
  datatype Round = Round(
    sourcePath: string,
    base: string,
    item: TargetItem,
    podDeleted: bool,
    status: Status,
    outcome: Outcome)

  /** The target to repair is one that resolving the base target can yield. */
  predicate Sane(r: Round) {
    && SubPathPrefix(r.base).Some?
    && (r.item.target == r.base || HasPrefix(r.item.target, SubPathPrefix(r.base).value))
  }

  /** How often the code believes a target to be mounted: it looks at the base target when a sub-path has no mount. */
  function Believed(table: Table, base: string, target: string): (count: nat)
  {
    if target != base && Count(table, target) > 0 then Count(table, target) else Count(table, base)
  }

  predicate Attempts(r: Round) {
    SubPathPrefix(r.base).Some? && r.status.Corrupt? && !r.item.inconsistent && !r.podDeleted && r.outcome.readable
  }

  /** The directory that is bound to the target. */
  function SourceOf(r: Round): (path: string) {
    if r.item.subpath == "" then r.sourcePath else r.sourcePath + "/" + r.item.subpath
  }

  predicate Binds(r: Round) {
    (r.item.subpath == "" || r.outcome.reachable(SourceOf(r))) && r.outcome.bound(SourceOf(r)).Some?
  }

  function AfterRound(table: Table, r: Round): (res: Table) {
    var target := r.item.target;
    if r.status.NotExist? && r.podDeleted then WithoutTimes(table, target, r.outcome.unmounts, r.item.count)
    else if !Attempts(r) then table
    else if Believed(table, r.base, target) >= MOUNTS_KEPT then
      if r.outcome.unmounts(0) then Without(table, target) else table
    else if Binds(r) then table + [r.outcome.bound(SourceOf(r)).value.(mountPoint := target)]
    else table
  }

  /** The mounts of the node's processes that a mount pod's driver changes. */
  class NodeMounts {
    var table: Table

    constructor (table: Table)
      ensures this.table == table
    {
      this.table := table;
    }

    method Unmount(target: string, succeeds: bool)
      modifies this
      ensures table == if succeeds then Without(old(table), target) else old(table)
    {
      if succeeds {
        table := Without(table, target);
      }
    }

    method UmountTarget(target: string, count: nat, succeeds: nat -> bool)
      modifies this
      ensures table == WithoutTimes(old(table), target, succeeds, count)
    {
      for i := 0 to count
        invariant table == WithoutTimes(old(table), target, succeeds, i)
      {
        Unmount(target, succeeds(i));
      }
    }

    /** Unmounts at most once: the wait after an unmount ends with the deadline only. */
    method UmountTargetUntilRemain(base: string, target: string, remainCount: nat, outcome: Outcome)
      returns (res: Result<(), string>)
      requires SubPathPrefix(base).Some? ==> target == base || HasPrefix(target, SubPathPrefix(base).value)
      modifies this
      ensures res.Ok? <==>
        outcome.readable && SubPathPrefix(base).Some? && Believed(old(table), base, target) < remainCount
      ensures res.Err? && outcome.readable && SubPathPrefix(base).Some? && outcome.unmounts(0) ==>
        table == Without(old(table), target)
      ensures res.Ok? || !outcome.readable || SubPathPrefix(base).None? || !outcome.unmounts(0) ==> table == old(table)
    {
      if !outcome.readable {
        return Err("cannot parse the mount table");
      }
      var mi := ResolveTarget(table, map[], base);
      if mi.None? {
        return Err("cannot resolve the target");
      }
      var count := mi.value.base.count;
      if mi.value.base.target != target {
        GroupIs(table, SubPathPrefix(base).value, true, target);
        NoneCounted(table, target);
        if target in mi.value.subPaths {
          count := mi.value.subPaths[target].count;
        } else {
          assert forall e :: e in table && e.mountPoint == target ==> Matches(e, SubPathPrefix(base).value, true);
          assert Count(table, target) == 0;
        }
      }
      if count < remainCount {
        return Ok(());
      }
      Unmount(target, outcome.unmounts(0));
      return Err("timeout");
    }

    method RecoverTarget(r: Round)
      requires Sane(r)
      modifies this
      ensures table == AfterRound(old(table), r)
    {
      match r.status {
        case NotExist =>
          if r.item.count > 0 && r.podDeleted {
            UmountTarget(r.item.target, r.item.count, r.outcome.unmounts);
          }
        case Corrupt =>
          if r.item.inconsistent || r.podDeleted {
            return;
          }
          var res := UmountTargetUntilRemain(r.base, r.item.target, MOUNTS_KEPT, r.outcome);
          if res.Err? {
            return;
          }
          var sourcePath := r.sourcePath;
          if r.item.subpath != "" {
            sourcePath := sourcePath + "/" + r.item.subpath;
            if !r.outcome.reachable(sourcePath) {
              return;
            }
          }
          var bound := r.outcome.bound(sourcePath);
          if bound.Some? {
            table := table + [bound.value.(mountPoint := r.item.target)];
          }
        case _ =>
      }
    }
  }

  // ---------- one round ----------

  lemma {:induction false} WithoutCount(table: Table, target: string, m: string)
    ensures Count(Without(table, target), m) ==
      if m == target && Count(table, m) > 0 then Count(table, m) - 1 else Count(table, m)
    ensures m == target && Count(table, m) == 0 ==> Without(table, target) == table
  {
    if table != [] {
      var front, last := table[..|table| - 1], table[|table| - 1];
      if last.mountPoint != target {
        WithoutCount(front, target, m);
        BindCount(Without(front, target), last, m);
        assert table == front + [last];
      }
    }
  }

  lemma {:induction false} WithoutTimesCount(table: Table, target: string, succeeds: nat -> bool, n: nat, m: string)
    ensures Count(WithoutTimes(table, target, succeeds, n), m) <= Count(table, m)
    ensures m != target ==> Count(WithoutTimes(table, target, succeeds, n), m) == Count(table, m)
    ensures m == target && (forall i: nat :: i < n ==> succeeds(i)) && Count(table, m) >= n ==>
      Count(WithoutTimes(table, target, succeeds, n), m) == Count(table, m) - n
  {
    if n > 0 {
      WithoutTimesCount(table, target, succeeds, n - 1, m);
      WithoutCount(WithoutTimes(table, target, succeeds, n - 1), target, m);
    }
  }

  lemma BindCount(table: Table, e: Entry, m: string)
    ensures Count(table + [e], m) == Count(table, m) + if e.mountPoint == m then 1 else 0
  {
    assert (table + [e])[..|table|] == table;
  }

  predicate Cleans(r: Round) {
    r.status.NotExist? && r.podDeleted
  }

  function Min(a: int, b: int): (r: int) {
    if a < b then a else b
  }

  function Max(a: int, b: int): (r: int) {
    if a < b then b else a
  }

  /** What one round does to the number of mounts of any mount point: at most one more, and only below the
      bound; at most one less, and only from the bound on, unless the round cleans up after a deleted pod. */
  lemma RoundBounds(table: Table, r: Round, m: string)
    ensures m != r.item.target ==> Count(AfterRound(table, r), m) == Count(table, m)
    ensures Count(AfterRound(table, r), m) <= Max(Count(table, m), MOUNTS_KEPT)
    ensures !Cleans(r) ==> Count(AfterRound(table, r), m) >= Min(Count(table, m), MOUNTS_KEPT - 1)
  {
    var target := r.item.target;
    WithoutCount(table, target, m);
    if Cleans(r) {
      WithoutTimesCount(table, target, r.outcome.unmounts, r.item.count, m);
    } else if Attempts(r) && Believed(table, r.base, target) < MOUNTS_KEPT && Binds(r) {
      BindCount(table, r.outcome.bound(SourceOf(r)).value.(mountPoint := target), m);
    }
  }

  /** A corrupt target of an app pod that is not deleted, whose mounts agree, in a table that can be read. */
  predicate Repairable(r: Round) {
    && r.status.Corrupt? && !r.item.inconsistent && !r.podDeleted
    && r.outcome.readable && SubPathPrefix(r.base).Some?
  }

  /** A round adds a mount to its target exactly when the target can be repaired, fewer than five mounts are counted
      (those of the base target for a sub-path without any), the directory of a sub-path is reachable and the bind
      succeeds; it takes one away exactly when the target can be repaired, has five mounts or more and the unmount
      succeeds. */
  lemma RoundAddsIff(table: Table, r: Round)
    requires !Cleans(r)
    ensures Count(AfterRound(table, r), r.item.target) == Count(table, r.item.target) + 1 <==>
      && Repairable(r) && Count(table, r.item.target) < 5
      && (Count(table, r.item.target) == 0 ==> Count(table, r.base) < 5)
      && (r.item.subpath != "" ==> r.outcome.reachable(r.sourcePath + "/" + r.item.subpath))
      && r.outcome.bound(r.sourcePath + if r.item.subpath == "" then "" else "/" + r.item.subpath).Some?
    ensures Count(AfterRound(table, r), r.item.target) == Count(table, r.item.target) - 1 <==>
      Repairable(r) && r.outcome.unmounts(0) && Count(table, r.item.target) >= 5
  {
    var target := r.item.target;
    WithoutCount(table, target, target);
    SourceIs(r);
    if Attempts(r) && Believed(table, r.base, target) < MOUNTS_KEPT && Binds(r) {
      BindCount(table, r.outcome.bound(SourceOf(r)).value.(mountPoint := target), target);
    }
  }

  lemma SourceIs(r: Round)
    ensures SourceOf(r) == r.sourcePath + if r.item.subpath == "" then "" else "/" + r.item.subpath
  {
    assert r.sourcePath + "" == r.sourcePath;
    assert r.sourcePath + "/" + r.item.subpath == r.sourcePath + ("/" + r.item.subpath);
  }

  /** The mount that a round adds is on top, at the target, and the one that the bind of the volume's directory, or of
      the sub-path in it, yields. */
  lemma RoundBinds(table: Table, r: Round)
    requires Count(AfterRound(table, r), r.item.target) > Count(table, r.item.target)
    ensures var source := r.sourcePath + if r.item.subpath == "" then "" else "/" + r.item.subpath;
      r.outcome.bound(source).Some? &&
      AfterRound(table, r) == table + [r.outcome.bound(source).value.(mountPoint := r.item.target)]
  {
    var target := r.item.target;
    SourceIs(r);
    WithoutCount(table, target, target);
    if Cleans(r) {
      WithoutTimesCount(table, target, r.outcome.unmounts, r.item.count, target);
    }
  }

  /** Cleaning up after a deleted pod removes every mount of the target when nothing fails and the record is current. */
  lemma CleaningEmptiesTarget(table: Table, r: Round)
    requires Cleans(r) && r.item.count == Count(table, r.item.target)
    requires forall i: nat :: i < r.item.count ==> r.outcome.unmounts(i)
    ensures Count(AfterRound(table, r), r.item.target) == 0
  {
    WithoutTimesCount(table, r.item.target, r.outcome.unmounts, r.item.count, r.item.target);
  }

  // ---------- any number of rounds ----------

  function AfterRounds(table: Table, rounds: seq<Round>): (r: Table) {
    if rounds == [] then table else AfterRound(AfterRounds(table, rounds[..|rounds| - 1]), rounds[|rounds| - 1])
  }

  /** Over any rounds on any targets, no mount point ends up with more mounts than it had or the bound, nor,
      unless its pod is cleaned up, with fewer than it had or one below the bound. */
  lemma {:induction false} StackStaysBounded(table: Table, rounds: seq<Round>, m: string)
    ensures Count(AfterRounds(table, rounds), m) <= Max(Count(table, m), MOUNTS_KEPT)
    ensures (forall r :: r in rounds ==> !Cleans(r) || r.item.target != m) ==>
      Count(AfterRounds(table, rounds), m) >= Min(Count(table, m), MOUNTS_KEPT - 1)
    ensures (forall r :: r in rounds ==> r.item.target != m) ==>
      Count(AfterRounds(table, rounds), m) == Count(table, m)
  {
    if rounds != [] {
      StackStaysBounded(table, rounds[..|rounds| - 1], m);
      RoundBounds(AfterRounds(table, rounds[..|rounds| - 1]), rounds[|rounds| - 1], m);
    }
  }

  /** A round on a broken target in which nothing fails. */
  predicate Lucky(r: Round, target: string) {
    r.base == r.item.target == target && Attempts(r) && Binds(r) && r.outcome.unmounts(0)
  }

  /** A target that keeps breaking while nothing else fails settles at four or five mounts, and stays there. */
  lemma {:induction false} StackSettles(table: Table, rounds: seq<Round>, target: string)
    requires forall r :: r in rounds ==> Lucky(r, target)
    ensures var before, after := Count(table, target), Count(AfterRounds(table, rounds), target);
      if before < MOUNTS_KEPT - 1 && |rounds| < MOUNTS_KEPT - 1 - before then after == before + |rounds|
      else if before > MOUNTS_KEPT && |rounds| < before - MOUNTS_KEPT then after == before - |rounds|
      else after == MOUNTS_KEPT || after == MOUNTS_KEPT - 1
  {
    if rounds != [] {
      var r := rounds[|rounds| - 1];
      StackSettles(table, rounds[..|rounds| - 1], target);
      assert Lucky(r, target);
      RoundAddsIff(AfterRounds(table, rounds[..|rounds| - 1]), r);
    }
  }
}
