/** Unmounting in process mode: the references of a mount are the other mounts of its device. */
module ProcessMount {
  import opened GoPath
  import opened MountInfo
  import opened Strings
  import opened Wrappers

  type Device = (string, string)

  function DeviceOf(e: Entry): (r: Device) {
    (e.majorMinor, e.fsType)
  }

  /** `pathWithinBase` on absolute paths. */
  predicate Within(path: string, base: string) {
    HasPrefix(path, "/") && HasPrefix(base, "/") && Reduce(Elements(base), true) <= Reduce(Elements(path), true)
  }

  /** A clean absolute path is within another one exactly when that one's elements come first in it. */
  lemma WithinIff(a: seq<string>, b: seq<string>)
    requires forall e :: e in a + b ==> Element(e) && e != ".."
    ensures Within("/" + Join(a, "/"), "/" + Join(b, "/")) <==> b <= a
  {
    assert forall e :: e in a ==> e in a + b;
    assert forall e :: e in b ==> e in a + b;
    RootedElements(a);
    RootedElements(b);
  }

  lemma RootedElements(a: seq<string>)
    requires forall e :: e in a ==> Element(e) && e != ".."
    ensures Reduce(Elements("/" + Join(a, "/")), true) == a
  {
    ElementsRooted(Join(a, "/"));
    if a == [] {
      assert Elements("") == [];
    } else {
      ElementsJoin(a);
      NoStepBack(a, true);
    }
  }

  predicate Covers(e: Entry, path: string) {
    path == e.mountPoint || Within(path, e.mountPoint)
  }

  /** The last entry that covers `path`: later mounts lie over earlier ones. */
  function Top(table: seq<Entry>, path: string): (i: int)
    ensures -1 <= i < |table|
    ensures i >= 0 ==> Covers(table[i], path)
    ensures forall j :: i < j < |table| ==> !Covers(table[j], path)
  {
    if table == [] then -1
    else if Covers(table[|table| - 1], path) then |table| - 1
    else Top(table[..|table| - 1], path)
  }

  /** The mount points of a device, without those of mount `id`. */
  function SameDevice(table: seq<Entry>, device: Device, id: int): (r: seq<string>) {
    if table == [] then []
    else
      var front, last := table[..|table| - 1], table[|table| - 1];
      if last.id != id && DeviceOf(last) == device then SameDevice(front, device, id) + [last.mountPoint]
      else SameDevice(front, device, id)
  }

  function Search(table: seq<Entry>, path: string): (r: Option<seq<string>>) {
    var i := Top(table, path);
    if i < 0 || table[i].majorMinor == "" ||
       PathJoin(table[i].root, TrimPrefix(path, table[i].mountPoint)) == "" then None
    else Some(SameDevice(table, DeviceOf(table[i]), table[i].id))
  }

  lemma {:induction false} TopIs(table: seq<Entry>, path: string, i: int)
    requires -1 <= i < |table| && (i >= 0 ==> Covers(table[i], path))
    requires forall j :: i < j < |table| ==> !Covers(table[j], path)
    ensures Top(table, path) == i
  {
  }

  method SearchMountPoints(mis: seq<Entry>, hostSource: string) returns (r: Option<seq<string>>)
    ensures r == Search(mis, hostSource)
  {
    var mountId, rootPath, majorMinor, fsType := 0, "", "", "";
    var i := |mis| - 1;
    while i >= 0
      invariant -1 <= i < |mis|
      invariant forall j :: i < j < |mis| ==> !Covers(mis[j], hostSource)
      invariant majorMinor == "" && rootPath == ""
    {
      if hostSource == mis[i].mountPoint || Within(hostSource, mis[i].mountPoint) {
        mountId := mis[i].id;
        rootPath := PathJoin(mis[i].root, TrimPrefix(hostSource, mis[i].mountPoint));
        majorMinor := mis[i].majorMinor;
        fsType := mis[i].fsType;
        TopIs(mis, hostSource, i);
        break;
      }
      i := i - 1;
    }
    if i < 0 {
      TopIs(mis, hostSource, -1);
    }
    if rootPath == "" || majorMinor == "" {
      return None;
    }
    var refs: seq<string> := [];
    for k := 0 to |mis|
      invariant refs == SameDevice(mis[..k], (majorMinor, fsType), mountId)
    {
      assert mis[..k + 1][..k] == mis[..k];
      if mis[k].id == mountId {
        continue;
      }
      if mis[k].majorMinor == majorMinor && mis[k].fsType == fsType {
        refs := refs + [mis[k].mountPoint];
      }
    }
    assert mis[..|mis|] == mis;
    r := Some(refs);
  }

  /** What the search finds, stated on the fields: the mount points of all other mounts with the device number and the
      type of the last mount that covers the path. */
  lemma SearchIs(table: seq<Entry>, path: string)
    ensures Search(table, path).None? <==>
      || (forall e :: e in table ==> !Covers(e, path))
      || (var top := table[Top(table, path)];
          Top(table, path) >= 0 && (top.majorMinor == "" || (top.root == "" && TrimPrefix(path, top.mountPoint) == "")))
    ensures Search(table, path).Some? ==>
      var top := table[Top(table, path)];
      forall p :: p in Search(table, path).value <==> exists e :: IsReference(table, top, e) && e.mountPoint == p
  {
    if Top(table, path) >= 0 {
      var top := table[Top(table, path)];
      NoPath(top.root, TrimPrefix(path, top.mountPoint));
      SameDeviceAre(table, top);
    }
  }

  lemma NoPath(a: string, b: string)
    ensures PathJoin(a, b) == "" <==> a == "" && b == ""
  {
  }

  lemma {:induction false} SameDeviceAre(table: seq<Entry>, top: Entry)
    ensures forall p :: p in SameDevice(table, DeviceOf(top), top.id) <==>
      exists e :: IsReference(table, top, e) && e.mountPoint == p
  {
    if table != [] {
      var front, last := table[..|table| - 1], table[|table| - 1];
      SameDeviceAre(front, top);
      assert table == front + [last];
      forall p ensures p in SameDevice(table, DeviceOf(top), top.id) <==>
        exists e :: IsReference(table, top, e) && e.mountPoint == p
      {
        if exists e :: IsReference(front, top, e) && e.mountPoint == p {
          var e :| IsReference(front, top, e) && e.mountPoint == p;
          assert IsReference(table, top, e);
        } else if IsReference(table, top, last) && last.mountPoint == p {
        } else {
          forall e | IsReference(table, top, e) ensures e.mountPoint != p {
            assert e == last || IsReference(front, top, e);
          }
        }
      }
    }
  }

  predicate IsReference(table: seq<Entry>, top: Entry, e: Entry) {
    e in table && e.id != top.id && e.majorMinor == top.majorMinor && e.fsType == top.fsType
  }

  /** The kernel unmounts the topmost mount of a mount point. */
  function Without(table: seq<Entry>, path: string): (r: seq<Entry>) {
    if table == [] then []
    else if table[|table| - 1].mountPoint == path then table[..|table| - 1]
    else Without(table[..|table| - 1], path) + [table[|table| - 1]]
  }

  lemma {:induction false} WithoutIs(table: seq<Entry>, path: string, i: nat)
    requires i < |table| && table[i].mountPoint == path && forall j :: i < j < |table| ==> table[j].mountPoint != path
    ensures Without(table, path) == table[..i] + table[i + 1..]
  {
    var n := |table| - 1;
    if i < n {
      WithoutIs(table[..n], path, i);
      assert table[..n][..i] == table[..i];
      assert table[i + 1..] == table[..n][i + 1..] + [table[n]];
    }
  }

  predicate Mounted(table: seq<Entry>, path: string) {
    exists i :: 0 <= i < |table| && table[i].mountPoint == path
  }

  /** What the checks before an unmount find at the target. */
  datatype Probe = Missing | NotMountPoint | IsMountPoint | Corrupted | Unreadable

  /** The mount point leads to its own topmost mount; otherwise the mount is hidden under a later one. */
  predicate Visible(table: seq<Entry>, path: string) {
    Top(table, path) >= 0 && table[Top(table, path)].mountPoint == path
  }

  /** Unless it is reliable, an unmount may fail for reasons of its own; that of a hidden mount may always fail. */
  class ProcessMounter {
    const reliable: bool
    var table: seq<Entry>

    constructor (table: seq<Entry>, reliable: bool)
      ensures this.table == table && this.reliable == reliable
    {
      this.table, this.reliable := table, reliable;
    }

    method Unmount(path: string) returns (ok: bool)
      modifies this
      ensures ok ==> Mounted(old(table), path) && table == Without(old(table), path)
      ensures !ok ==> table == old(table)
      ensures reliable && Visible(old(table), path) ==> ok
    {
      var fails: bool := *;
      if fails && (!reliable || !Visible(table, path)) {
        return false;
      }
      ok := exists i :: 0 <= i < |table| && table[i].mountPoint == path;
      if ok {
        table := Without(table, path);
      }
    }

    method GetMountRef(target: string, probe: Probe) returns (r: Option<nat>)
      ensures probe.Missing? || probe.NotMountPoint? ==> r == Some(0)
      ensures probe.Unreadable? ==> r == None
      ensures probe.IsMountPoint? || probe.Corrupted? ==>
        r == match Search(table, target) case None => None case Some(refs) => Some(|refs|)
    {
      match probe
      case Missing => r := Some(0);
      case NotMountPoint => r := Some(0);
      case Unreadable => r := None;
      case _ =>
        var refs := SearchMountPoints(table, target);
        r := if refs.None? then None else Some(|refs.value|);
    }

    /** Unmounts the target, and the mount of its device when it is the only one left. */
    method JUmount(target: string, probe: Probe) returns (ok: bool)
      modifies this
      ensures probe.Missing? || probe.NotMountPoint? || probe.Unreadable? ==>
        table == old(table) && ok == !probe.Unreadable?
      ensures !ok && table != old(table) ==> table == Without(old(table), target)
      ensures probe.IsMountPoint? || probe.Corrupted? ==> (ok ==> CanUnmount(old(table), target))
      ensures reliable && (probe.IsMountPoint? || probe.Corrupted?) && CanSeeUnmount(old(table), target) ==> ok
      ensures ok && (probe.IsMountPoint? || probe.Corrupted?) ==>
        Search(old(table), target).Some? && table == Unmounted(old(table), target, Search(old(table), target).value)
    {
      match probe
      case Missing => ok := true;
      case NotMountPoint => ok := true;
      case Unreadable => ok := false;
      case _ =>
        var refs := SearchMountPoints(table, target);
        if refs.None? {
          return false;
        }
        ok := Unmount(target);
        if ok && |refs.value| == 1 {
          ok := Unmount(refs.value[0]);
        }
    }
  }

  /** The target is mounted, and so is the other mount of the device when there is one to unmount with it. */
  predicate CanUnmount(table: seq<Entry>, target: string) {
    match Search(table, target)
    case None => false
    case Some(refs) => Mounted(table, target) && (|refs| == 1 ==> Mounted(Without(table, target), refs[0]))
  }

  /** Neither of the two is hidden when its turn comes. */
  predicate CanSeeUnmount(table: seq<Entry>, target: string) {
    match Search(table, target)
    case None => false
    case Some(refs) => Visible(table, target) && (|refs| == 1 ==> Visible(Without(table, target), refs[0]))
  }

  /** The table after a `JUmount` in which every unmount succeeds. */
  function Unmounted(table: seq<Entry>, target: string, refs: seq<string>): (r: seq<Entry>) {
    if |refs| == 1 then Without(Without(table, target), refs[0]) else Without(table, target)
  }

  // ---------- conservation ----------

  /** The table without the mounts of some mount points, in the same order. */
  function Keep(table: seq<Entry>, gone: set<string>): (r: seq<Entry>) {
    if table == [] then []
    else
      var front, last := table[..|table| - 1], table[|table| - 1];
      if last.mountPoint in gone then Keep(front, gone) else Keep(front, gone) + [last]
  }

  function OfDevice(table: seq<Entry>, device: Device): (r: seq<Entry>) {
    if table == [] then []
    else
      var front, last := table[..|table| - 1], table[|table| - 1];
      if DeviceOf(last) == device then OfDevice(front, device) + [last] else OfDevice(front, device)
  }

  ghost predicate DistinctMounts(table: seq<Entry>) {
    forall i, j :: 0 <= i < j < |table| ==> table[i].mountPoint != table[j].mountPoint && table[i].id != table[j].id
  }

  lemma {:induction false} KeepAll(table: seq<Entry>, gone: set<string>)
    requires forall i :: 0 <= i < |table| ==> table[i].mountPoint !in gone
    ensures Keep(table, gone) == table
  {
    if table != [] {
      KeepAll(table[..|table| - 1], gone);
    }
  }

  lemma {:induction false} WithoutIsKeep(table: seq<Entry>, path: string)
    requires DistinctMounts(table)
    ensures Without(table, path) == Keep(table, {path})
  {
    if table != [] {
      if table[|table| - 1].mountPoint == path {
        KeepAll(table[..|table| - 1], {path});
      } else {
        WithoutIsKeep(table[..|table| - 1], path);
      }
    }
  }

  lemma OneMore(table: seq<Entry>, e: Entry)
    ensures forall gone ::
      Keep(table + [e], gone) == if e.mountPoint in gone then Keep(table, gone) else Keep(table, gone) + [e]
    ensures forall d ::
      OfDevice(table + [e], d) == if DeviceOf(e) == d then OfDevice(table, d) + [e] else OfDevice(table, d)
  {
    assert (table + [e])[..|table|] == table;
  }

  lemma {:induction false} KeepTwice(table: seq<Entry>, a: set<string>, b: set<string>)
    ensures Keep(Keep(table, a), b) == Keep(table, a + b)
  {
    if table != [] {
      var front, last := table[..|table| - 1], table[|table| - 1];
      KeepTwice(front, a, b);
      OneMore(Keep(front, a), last);
    }
  }

  lemma {:induction false} KeepDistinct(table: seq<Entry>, gone: set<string>)
    requires DistinctMounts(table)
    ensures DistinctMounts(Keep(table, gone))
    ensures forall e :: e in Keep(table, gone) <==> e in table && e.mountPoint !in gone
  {
    if table != [] {
      var front, last := table[..|table| - 1], table[|table| - 1];
      KeepDistinct(front, gone);
      assert table == front + [last];
      forall i | 0 <= i < |Keep(front, gone)|
        ensures Keep(front, gone)[i].mountPoint != last.mountPoint && Keep(front, gone)[i].id != last.id
      {
        assert Keep(front, gone)[i] in front;
      }
    }
  }

  lemma {:induction false} OfDeviceKeep(table: seq<Entry>, gone: set<string>, device: Device)
    ensures OfDevice(Keep(table, gone), device) == Keep(OfDevice(table, device), gone)
  {
    if table != [] {
      var front, last := table[..|table| - 1], table[|table| - 1];
      OfDeviceKeep(front, gone, device);
      OneMore(Keep(front, gone), last);
      OneMore(OfDevice(front, device), last);
    }
  }

  lemma {:induction false} OfDeviceAre(table: seq<Entry>, device: Device)
    ensures forall e :: e in OfDevice(table, device) <==> e in table && DeviceOf(e) == device
    ensures DistinctMounts(table) ==> DistinctMounts(OfDevice(table, device))
  {
    if table != [] {
      var front, last := table[..|table| - 1], table[|table| - 1];
      OfDeviceAre(front, device);
      assert table == front + [last];
      if DistinctMounts(table) {
        forall i | 0 <= i < |OfDevice(front, device)|
          ensures OfDevice(front, device)[i].mountPoint != last.mountPoint && OfDevice(front, device)[i].id != last.id
        {
          assert OfDevice(front, device)[i] in front;
        }
      }
    }
  }

  function Points(table: seq<Entry>): (r: seq<string>)
    ensures |r| == |table|
  {
    if table == [] then [] else Points(table[..|table| - 1]) + [table[|table| - 1].mountPoint]
  }

  /** The references of entry `e`: the other mounts of its device. */
  lemma {:induction false} RefsAre(table: seq<Entry>, device: Device, e: Entry)
    requires forall i :: 0 <= i < |table| ==> (table[i].id == e.id <==> table[i].mountPoint == e.mountPoint)
    ensures SameDevice(table, device, e.id) == Points(Keep(OfDevice(table, device), {e.mountPoint}))
  {
    if table != [] {
      var front, last := table[..|table| - 1], table[|table| - 1];
      RefsAre(front, device, e);
      OneMore(OfDevice(front, device), last);
      PointsMore(Keep(OfDevice(front, device), {e.mountPoint}), last);
    }
  }

  lemma PointsMore(table: seq<Entry>, e: Entry)
    ensures Points(table + [e]) == Points(table) + [e.mountPoint]
  {
    assert (table + [e])[..|table|] == table;
  }

  lemma {:induction false} KeepOne(table: seq<Entry>, e: Entry)
    requires DistinctMounts(table)
    ensures e in table ==> |Keep(table, {e.mountPoint})| == |table| - 1
    ensures |Keep(table, {e.mountPoint})| <= |table|
  {
    if table != [] {
      var front, last := table[..|table| - 1], table[|table| - 1];
      assert table == front + [last];
      KeepOne(front, e);
      if last.mountPoint == e.mountPoint {
        KeepAll(front, {e.mountPoint});
      }
    }
  }

  /** Mounts of different devices have different mount points. */
  lemma OtherDeviceKept(table: seq<Entry>, gone: set<string>, device: Device)
    requires DistinctMounts(table)
    requires forall e :: e in table && e.mountPoint in gone ==> DeviceOf(e) != device
    ensures OfDevice(Keep(table, gone), device) == OfDevice(table, device)
  {
    OfDeviceKeep(table, gone, device);
    OfDeviceAre(table, device);
    KeepAll(OfDevice(table, device), gone);
  }

  /** The mount points that a `JUmount` with these references takes away. */
  function Gone(target: string, refs: seq<string>): (r: set<string>) {
    if |refs| == 1 then {target, refs[0]} else {target}
  }

  lemma UnmountedIsKeep(table: seq<Entry>, target: string, refs: seq<string>)
    requires DistinctMounts(table)
    ensures Unmounted(table, target, refs) == Keep(table, Gone(target, refs))
  {
    WithoutIsKeep(table, target);
    if |refs| == 1 {
      KeepDistinct(table, {target});
      WithoutIsKeep(Keep(table, {target}), refs[0]);
      KeepTwice(table, {target}, {refs[0]});
      assert {target} + {refs[0]} == Gone(target, refs);
    }
  }

  /** The references found are one less than the mounts of the device on top, and they are mounts of it. */
  lemma SearchCounts(table: seq<Entry>, target: string)
    requires DistinctMounts(table) && Search(table, target).Some?
    ensures var top := table[Top(table, target)];
      var refs := Search(table, target).value;
      && |refs| == |OfDevice(table, DeviceOf(top))| - 1
      && (|refs| == 1 ==> exists e :: e in table && DeviceOf(e) == DeviceOf(top) && e != top && e.mountPoint == refs[0])
  {
    var top := table[Top(table, target)];
    var device := OfDevice(table, DeviceOf(top));
    OfDeviceAre(table, DeviceOf(top));
    RefsAre(table, DeviceOf(top), top);
    KeepOne(device, top);
    var others := Keep(device, {top.mountPoint});
    if |others| == 1 {
      KeepDistinct(device, {top.mountPoint});
      assert others[0] in others;
      assert Points(others)[0] == others[0].mountPoint;
    }
  }

  /** The mount points that go with the target: that of the other mount of the device on top, if it has exactly one. */
  function Others(table: seq<Entry>, top: Entry): (points: set<string>) {
    var over := OfDevice(table, DeviceOf(top));
    if |over| == 2 then set e | e in over && e != top :: e.mountPoint else {}
  }

  /** `JUmount` takes away the target, and with it the only other mount of the device on top of it. */
  lemma UnmountTakes(table: seq<Entry>, target: string)
    requires DistinctMounts(table) && Search(table, target).Some?
    ensures Gone(target, Search(table, target).value) == {target} + Others(table, table[Top(table, target)])
    ensures Unmounted(table, target, Search(table, target).value) ==
      Keep(table, {target} + Others(table, table[Top(table, target)]))
  {
    var top := table[Top(table, target)];
    var over, refs := OfDevice(table, DeviceOf(top)), Search(table, target).value;
    SearchCounts(table, target);
    OfDeviceAre(table, DeviceOf(top));
    UnmountedIsKeep(table, target, refs);
    if |refs| == 1 {
      OtherOfTwo(over, top, refs[0]);
      assert {target} + {refs[0]} == Gone(target, refs);
    } else {
      assert {target} + Others(table, top) == {target};
    }
  }

  lemma OtherOfTwo(over: seq<Entry>, top: Entry, other: string)
    requires |over| == 2 && DistinctMounts(over) && top in over
    requires exists e :: e in over && e != top && e.mountPoint == other
    ensures (set e | e in over && e != top :: e.mountPoint) == {other}
  {
    assert over == [over[0], over[1]];
  }

  /** The target's device is unmounted entirely when it had at most two mounts, and only then, unless it had exactly
      two and a later mount, of whatever device, lies over the target: then one of the two stays. */
  lemma DeviceFreedIff(table: seq<Entry>, target: string, own: Entry)
    requires DistinctMounts(table) && Search(table, target).Some? && own in table && own.mountPoint == target
    ensures var before := OfDevice(table, DeviceOf(own));
      var after := Unmounted(table, target, Search(table, target).value);
      (OfDevice(after, DeviceOf(own)) == [] <==> |before| <= 2) <==> (table[Top(table, target)] == own || |before| != 2)
  {
    var top, before := table[Top(table, target)], OfDevice(table, DeviceOf(own));
    var gone := {target} + Others(table, top);
    UnmountTakes(table, target);
    OfDeviceKeep(table, gone, DeviceOf(own));
    OfDeviceAre(table, DeviceOf(own));
    KeepDistinct(before, gone);
    if (top == own && |before| == 2) || |before| == 1 {
      FewFreed(before, own, gone);
    } else if |before| == 2 {
      KeepsOneOfTwo(table, own, top);
    } else {
      KeepsManyOf(table, own, top);
    }
  }

  lemma FewFreed(before: seq<Entry>, own: Entry, gone: set<string>)
    requires DistinctMounts(before) && own in before && own.mountPoint in gone
    requires |before| == 1 || (|before| == 2 && forall e :: e in before && e != own ==> e.mountPoint in gone)
    ensures Keep(before, gone) == []
  {
    forall e | e in before ensures e.mountPoint in gone {
    }
    NoneKept(before, gone);
  }

  lemma TwoAre(before: seq<Entry>, own: Entry)
    requires |before| == 2 && DistinctMounts(before) && own in before
    ensures forall e :: e in before ==>
      e.mountPoint in {own.mountPoint} + set x | x in before && x != own :: x.mountPoint
  {
  }

  /** Of two mounts, a covered target loses its own only. */
  lemma KeepsOneOfTwo(table: seq<Entry>, own: Entry, top: Entry)
    requires DistinctMounts(table) && own in table && top in table && top != own
    requires |OfDevice(table, DeviceOf(own))| == 2
    ensures exists e :: e in Keep(OfDevice(table, DeviceOf(own)), {own.mountPoint} + Others(table, top))
  {
    var before := OfDevice(table, DeviceOf(own));
    var gone := {own.mountPoint} + Others(table, top);
    OfDeviceAre(table, DeviceOf(own));
    OfDeviceAre(table, DeviceOf(top));
    KeepDistinct(before, gone);
    assert before == [before[0], before[1]];
    var other := if before[0] == own then before[1] else before[0];
    SamePoint(table);
    assert other in before && other.mountPoint !in gone;
    assert other in Keep(before, gone);
  }

  /** Of more than two, some mount stays. */
  lemma KeepsManyOf(table: seq<Entry>, own: Entry, top: Entry)
    requires DistinctMounts(table) && own in table && top in table
    requires |OfDevice(table, DeviceOf(own))| > 2
    ensures Keep(OfDevice(table, DeviceOf(own)), {own.mountPoint} + Others(table, top)) != []
  {
    var before := OfDevice(table, DeviceOf(own));
    var gone := {own.mountPoint} + Others(table, top);
    OfDeviceAre(table, DeviceOf(own));
    OfDeviceAre(table, DeviceOf(top));
    KeepDistinct(before, gone);
    SamePoint(table);
    var other := if before[0] == own then before[1] else before[0];
    assert other in before && other.mountPoint !in gone;
    assert other in Keep(before, gone);
  }

  lemma SamePoint(table: seq<Entry>)
    requires DistinctMounts(table)
    ensures forall a, b :: a in table && b in table && a.mountPoint == b.mountPoint ==> a == b
  {
  }

  /** A target that no later mount lies over: `JUmount` takes away the target alone, or with the only other mount of
      its device; the device is unmounted entirely exactly when it had at most two mounts; and the mounts of every
      other device stay as they are. */
  lemma UnmountConserves(table: seq<Entry>, target: string)
    requires DistinctMounts(table) && Search(table, target).Some?
    requires table[Top(table, target)].mountPoint == target
    ensures var top := table[Top(table, target)];
      var before := OfDevice(table, DeviceOf(top));
      var after := Unmounted(table, target, Search(table, target).value);
      && after == Keep(table, if |before| == 2 then set e | e in before :: e.mountPoint else {target})
      && (OfDevice(after, DeviceOf(top)) == [] <==> |before| <= 2)
      && (forall d :: d != DeviceOf(top) ==> OfDevice(after, d) == OfDevice(table, d))
  {
    var top := table[Top(table, target)];
    DeviceFreedIff(table, target, top);
    OtherDevicesUntouchedIff(table, target, top);
    TargetOnTop(table, target);
  }

  lemma TargetOnTop(table: seq<Entry>, target: string)
    requires DistinctMounts(table) && Search(table, target).Some?
    requires table[Top(table, target)].mountPoint == target
    ensures var before := OfDevice(table, DeviceOf(table[Top(table, target)]));
      Unmounted(table, target, Search(table, target).value) ==
        Keep(table, if |before| == 2 then set e | e in before :: e.mountPoint else {target})
  {
    var top := table[Top(table, target)];
    var before, refs := OfDevice(table, DeviceOf(top)), Search(table, target).value;
    SearchCounts(table, target);
    OfDeviceAre(table, DeviceOf(top));
    UnmountedIsKeep(table, target, refs);
    if |refs| == 1 {
      BothGone(before, top, refs[0]);
    }
  }

  lemma BothGone(before: seq<Entry>, top: Entry, other: string)
    requires |before| == 2 && DistinctMounts(before) && top in before
    requires exists e :: e in before && e != top && e.mountPoint == other
    ensures (set e | e in before :: e.mountPoint) == {top.mountPoint, other}
  {
    assert before == [before[0], before[1]];
  }

  lemma {:induction false} NoneKept(table: seq<Entry>, gone: set<string>)
    requires forall i :: 0 <= i < |table| ==> table[i].mountPoint in gone
    ensures Keep(table, gone) == []
  {
    if table != [] {
      NoneKept(table[..|table| - 1], gone);
    }
  }

  /** What is taken away belongs to one device. */
  lemma GoneOfDevice(table: seq<Entry>, target: string, refs: seq<string>, device: Device)
    requires DistinctMounts(table)
    requires exists e :: e in table && DeviceOf(e) == device && e.mountPoint == target
    requires |refs| == 1 ==> exists e :: e in table && DeviceOf(e) == device && e.mountPoint == refs[0]
    ensures forall e :: e in table && e.mountPoint in Gone(target, refs) ==> DeviceOf(e) == device
  {
  }

  /** Whatever lies over the target: the mounts of other devices stay untouched exactly when the mount on top is of
      the target's device, or when the device on top does not have exactly two mounts. */
  lemma OtherDevicesUntouchedIff(table: seq<Entry>, target: string, own: Entry)
    requires DistinctMounts(table) && Search(table, target).Some?
    requires own in table && own.mountPoint == target
    ensures var top := DeviceOf(table[Top(table, target)]);
      var after := Unmounted(table, target, Search(table, target).value);
      (forall d :: d != DeviceOf(own) ==> OfDevice(after, d) == OfDevice(table, d)) <==>
      (top == DeviceOf(own) || |OfDevice(table, top)| != 2)
  {
    var top := DeviceOf(table[Top(table, target)]);
    var refs := Search(table, target).value;
    SearchCounts(table, target);
    UnmountedIsKeep(table, target, refs);
    if top == DeviceOf(own) || |refs| != 1 {
      GoneOfDevice(table, target, refs, DeviceOf(own));
      forall d | d != DeviceOf(own) ensures OfDevice(Keep(table, Gone(target, refs)), d) == OfDevice(table, d) {
        OtherDeviceKept(table, Gone(target, refs), d);
      }
    } else {
      OfDeviceKeep(table, Gone(target, refs), top);
      OfDeviceAre(table, top);
      KeepDistinct(OfDevice(table, top), Gone(target, refs));
      var e :| e in table && DeviceOf(e) == top && e.mountPoint == refs[0];
      assert e in OfDevice(table, top) && e !in Keep(OfDevice(table, top), Gone(target, refs));
    }
  }

  lemma OneElement(e: string)
    requires Element(e) && e != ".."
    ensures Reduce(Elements("/" + e), true) == [e]
  {
    ElementsRooted(e);
    SplitNoSep(e, '/');
    SignificantOf([e]);
    assert [e][..0] == [];
  }

  lemma RootCovers(t: string)
    ensures Within("/" + t, "/") && TrimPrefix("/" + t, "/") == t
    ensures PathJoin("/", t) != ""
  {
    assert Elements("/") == [] by {
      assert Split("/", '/') == ["", ""];
    }
  }

  lemma SiblingDoesNotCover(t: string, x: string)
    requires Element(t) && t != ".." && Element(x) && x != ".." && t != x
    ensures !Within("/" + t, "/" + x) && "/" + t != "/" + x
  {
    OneElement(t);
    OneElement(x);
    assert [x][0] != [t][0];
    assert ("/" + t)[1..] == t && ("/" + x)[1..] == x;
  }

  /** Of these mounts, one lies over the target and is of the same device as the last: both the target and the last one
      go, though the last is no mount of the target's device. */
  lemma CoveredTakesOther(root: Entry, own: Entry, over: Entry, other: Entry)
    requires DeviceOf(over) == DeviceOf(other) && DeviceOf(root) != DeviceOf(over) && DeviceOf(own) != DeviceOf(over)
    requires over.id != other.id && own.mountPoint !in {root.mountPoint, over.mountPoint, other.mountPoint}
    requires other.mountPoint !in {root.mountPoint, over.mountPoint}
    requires Covers(over, own.mountPoint) && !Covers(other, own.mountPoint) && over.majorMinor != ""
    requires PathJoin(over.root, TrimPrefix(own.mountPoint, over.mountPoint)) != ""
    ensures var table := [root, own, over, other];
      && Search(table, own.mountPoint).Some?
      && Unmounted(table, own.mountPoint, Search(table, own.mountPoint).value) == [root, over]
  {
    var table := [root, own, over, other];
    var device := DeviceOf(over);
    TopIs(table, own.mountPoint, 2);
    FourFronts(root, own, over, other);
    assert SameDevice([root], device, over.id) == [];
    assert SameDevice([root, own], device, over.id) == [];
    assert SameDevice([root, own, over], device, over.id) == [];
    assert SameDevice(table, device, over.id) == [other.mountPoint];
    assert Without([root, own], own.mountPoint) == [root];
    assert Without([root, own, over], own.mountPoint) == [root, over];
    assert Without(table, own.mountPoint) == [root, over, other];
    assert [root, over, other][..2] == [root, over];
  }

  lemma FourFronts(a: Entry, b: Entry, c: Entry, d: Entry)
    ensures [a][..0] == [] && [a, b][..1] == [a] && [a, b, c][..2] == [a, b] && [a, b, c, d][..3] == [a, b, c]
  {
  }

  /** Mount tables as they can be: a root, the target's device bound on "/t", then another device mounted over "/" and
      bound on "/x". When the unmounts succeed, that of the target takes "/x" along, a mount of the other device. */
  lemma CoveredTargetTakesOther(a: Device, b: Device, r: Device, t: string, x: string)
    requires a != b && b != r && b.0 != "" && Element(t) && t != ".." && Element(x) && x != ".." && t != x
    ensures var table := [
        Entry(1, 0, r.0, "/", "/", [], [], r.1, "r", []),
        Entry(2, 1, a.0, "/", "/" + t, [], [], a.1, "a", []),
        Entry(3, 1, b.0, "/", "/", [], [], b.1, "b", []),
        Entry(4, 3, b.0, "/", "/" + x, [], [], b.1, "b", [])];
      && Search(table, "/" + t).Some?
      && Unmounted(table, "/" + t, Search(table, "/" + t).value) == [table[0], table[2]]
  {
    RootCovers(t);
    SiblingDoesNotCover(t, x);
    assert |"/" + t| > 1 && |"/" + x| > 1;
    CoveredTakesOther(
      Entry(1, 0, r.0, "/", "/", [], [], r.1, "r", []),
      Entry(2, 1, a.0, "/", "/" + t, [], [], a.1, "a", []),
      Entry(3, 1, b.0, "/", "/", [], [], b.1, "b", []),
      Entry(4, 3, b.0, "/", "/" + x, [], [], b.1, "b", []));
  }
}
