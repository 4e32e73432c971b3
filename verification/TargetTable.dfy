/** Grouping the mount table by mount point for one app-pod target and its sub-paths. */
module TargetTable {
  import opened MountInfo
  import opened Strings
  import opened Wrappers
  import TargetPath

  const SUBPATH_DIRECTORY := "volume-subpaths"

  /** One distinct mount point: the root it shows, how often it is mounted, and whether the roots disagree. */
  datatype TargetItem = TargetItem(target: string, subpath: string, count: nat, inconsistent: bool)

  function TrimSlashes(s: string): (r: string)
    decreases |s|
  {
    if s != "" && s[0] == '/' then TrimSlashes(s[1..])
    else if s != "" && s[|s| - 1] == '/' then TrimSlashes(s[..|s| - 1])
    else s
  }

  function NormalRoot(root: string): (r: string) {
    TrimSlashes(TrimSuffix(root, "//deleted"))
  }

  predicate Matches(e: Entry, path: string, isPrefix: bool) {
    if isPrefix then HasPrefix(e.mountPoint, path) else path == e.mountPoint
  }

  type Records = map<string, TargetItem>

  function AddEntry(records: Records, e: Entry): (r: Records) {
    var subpath := NormalRoot(e.root);
    if e.mountPoint !in records then records[e.mountPoint := TargetItem(e.mountPoint, subpath, 1, false)]
    else
      var r := records[e.mountPoint];
      records[e.mountPoint := r.(count := r.count + 1, inconsistent := r.inconsistent || r.subpath != subpath)]
  }

  function Group(mis: seq<Entry>, path: string, isPrefix: bool): (r: Records) {
    if mis == [] then map[]
    else
      var records := Group(mis[..|mis| - 1], path, isPrefix);
      if Matches(mis[|mis| - 1], path, isPrefix) then AddEntry(records, mis[|mis| - 1]) else records
  }

  method ResolveTargetItem(mis: seq<Entry>, path: string, isPrefix: bool) returns (records: Records)
    ensures records == Group(mis, path, isPrefix)
  {
    records := map[];
    for i := 0 to |mis|
      invariant records == Group(mis[..i], path, isPrefix)
    {
      assert mis[..i + 1][..i] == mis[..i];
      var e := mis[i];
      var match_ := false;
      if isPrefix {
        if HasPrefix(e.mountPoint, path) {
          match_ := true;
        }
      } else {
        if path == e.mountPoint {
          match_ := true;
        }
      }
      if !match_ {
        continue;
      }
      var subpath := NormalRoot(e.root);
      if e.mountPoint !in records {
        records := records[e.mountPoint := TargetItem(e.mountPoint, subpath, 1, false)];
      } else {
        var record := records[e.mountPoint];
        if record.subpath != subpath {
          record := record.(inconsistent := true);
        }
        record := record.(count := record.count + 1);
        records := records[e.mountPoint := record];
      }
    }
    assert mis[..|mis|] == mis;
  }

  // ---------- the normal root ----------

  predicate Slashes(s: string) {
    forall c :: c in s ==> c == '/'
  }

  /** `m` is `s` without the slashes around it. */
  ghost predicate TrimsTo(s: string, a: string, m: string, b: string) {
    s == a + m + b && Slashes(a) && Slashes(b) && (m == "" || (m[0] != '/' && m[|m| - 1] != '/'))
  }

  lemma {:induction false} TrimSlashesIs(s: string) returns (a: string, b: string)
    ensures TrimsTo(s, a, TrimSlashes(s), b)
    decreases |s|
  {
    if s != "" && s[0] == '/' {
      a, b := TrimSlashesIs(s[1..]);
      a := ['/'] + a;
      assert s == ['/'] + s[1..];
    } else if s != "" && s[|s| - 1] == '/' {
      a, b := TrimSlashesIs(s[..|s| - 1]);
      b := b + ['/'];
      assert s == s[..|s| - 1] + ['/'];
    } else {
      a, b := "", "";
      assert s == "" + s + "";
    }
  }

  lemma {:induction false} TrimmedOnce(a: string, m: string, b: string)
    requires Slashes(a) && Slashes(b) && (m == "" || (m[0] != '/' && m[|m| - 1] != '/'))
    ensures TrimSlashes(a + m + b) == m
    decreases |a| + |b|
  {
    var s := a + m + b;
    if a != "" {
      assert a[0] in a && s[1..] == a[1..] + m + b;
      assert forall c :: c in a[1..] ==> c in a;
      TrimmedOnce(a[1..], m, b);
    } else if b == "" {
      assert s == m;
    } else if m == "" {
      assert b[0] in b && s[0] == '/' && s[1..] == a + m + b[1..];
      assert forall c :: c in b[1..] ==> c in b;
      TrimmedOnce(a, m, b[1..]);
    } else {
      var n := |b| - 1;
      assert s[0] == m[0] && b[n] in b && s[..|s| - 1] == a + m + b[..n];
      assert forall c :: c in b[..n] ==> c in b;
      TrimmedOnce(a, m, b[..n]);
    }
  }

  /** The normal root is what stands between the slashes around a root, and the mark of a deleted directory does not
      count. */
  lemma NormalRootIff(root: string, m: string)
    ensures NormalRoot(root) == m <==> exists a, b :: TrimsTo(TrimSuffix(root, "//deleted"), a, m, b)
    ensures NormalRoot(root + "//deleted") == TrimSlashes(root)
  {
    TrimSlashesIff(TrimSuffix(root, "//deleted"), m);
    WithoutSuffix(root, "//deleted");
  }

  lemma WithoutSuffix(s: string, suffix: string)
    ensures TrimSuffix(s + suffix, suffix) == s
  {
    assert (s + suffix)[..|s|] == s && (s + suffix)[|s|..] == suffix;
  }

  lemma TrimSlashesIff(s: string, m: string)
    ensures TrimSlashes(s) == m <==> exists a, b :: TrimsTo(s, a, m, b)
  {
    var a, b := TrimSlashesIs(s);
    forall a', b' | TrimsTo(s, a', m, b') ensures TrimSlashes(s) == m {
      TrimmedOnce(a', m, b');
    }
  }

  // ---------- what the records say ----------

  function Count(mis: seq<Entry>, mountPoint: string): (r: nat) {
    if mis == [] then 0
    else Count(mis[..|mis| - 1], mountPoint) + if mis[|mis| - 1].mountPoint == mountPoint then 1 else 0
  }

  function CountMatching(mis: seq<Entry>, path: string, isPrefix: bool): (r: nat) {
    if mis == [] then 0
    else
      var point := mis[|mis| - 1].mountPoint;
      var matches := if isPrefix then path <= point else point == path;
      CountMatching(mis[..|mis| - 1], path, isPrefix) + if matches then 1 else 0
  }

  /** Two mounts of a mount point show different roots. */
  ghost predicate Disagree(mis: seq<Entry>, mountPoint: string) {
    exists a, b :: a in mis && b in mis && a.mountPoint == mountPoint && b.mountPoint == mountPoint &&
      NormalRoot(a.root) != NormalRoot(b.root)
  }

  ghost predicate HasMatch(mis: seq<Entry>, path: string, isPrefix: bool, mountPoint: string) {
    && (exists e :: e in mis && e.mountPoint == mountPoint)
    && if isPrefix then path <= mountPoint else mountPoint == path
  }

  /** The root that a record shows is that of some mount, and it is flagged when some mount has another one. */
  ghost predicate Shows(mis: seq<Entry>, m: string, r: TargetItem) {
    && r.target == m && r.count == Count(mis, m)
    && (exists e :: e in mis && e.mountPoint == m && NormalRoot(e.root) == r.subpath)
    && (r.inconsistent <==> exists e :: e in mis && e.mountPoint == m && NormalRoot(e.root) != r.subpath)
  }

  ghost predicate Describes(records: Records, mis: seq<Entry>, path: string, isPrefix: bool) {
    forall m :: (m in records <==> HasMatch(mis, path, isPrefix, m)) && (m in records ==> Shows(mis, m, records[m]))
  }

  lemma {:induction false} NoneCounted(mis: seq<Entry>, m: string)
    ensures Count(mis, m) == 0 <==> forall e :: e in mis ==> e.mountPoint != m
  {
    if mis != [] {
      NoneCounted(mis[..|mis| - 1], m);
      assert mis == mis[..|mis| - 1] + [mis[|mis| - 1]];
    }
  }

  lemma GroupStep(records: Records, front: seq<Entry>, last: Entry, path: string, isPrefix: bool, m: string)
    requires Describes(records, front, path, isPrefix)
    ensures var mis := front + [last];
      var records' := if Matches(last, path, isPrefix) then AddEntry(records, last) else records;
      (m in records' <==> HasMatch(mis, path, isPrefix, m)) && (m in records' ==> Shows(mis, m, records'[m]))
  {
    var mis := front + [last];
    assert forall e :: e in mis <==> e in front || e == last;
    assert mis[..|mis| - 1] == front;
    if m != last.mountPoint {
      assert HasMatch(mis, path, isPrefix, m) <==> HasMatch(front, path, isPrefix, m);
      assert m in records ==> Shows(front, m, records[m]);
    } else if Matches(last, path, isPrefix) {
      if m !in records {
        assert forall e :: e in front && e.mountPoint == m ==> Matches(e, path, isPrefix);
        assert !HasMatch(front, path, isPrefix, m);
        NoneCounted(front, m);
      } else {
        assert Shows(front, m, records[m]);
      }
    } else {
      assert !HasMatch(mis, path, isPrefix, m);
    }
  }

  lemma {:induction false} GroupDescribes(mis: seq<Entry>, path: string, isPrefix: bool)
    ensures Describes(Group(mis, path, isPrefix), mis, path, isPrefix)
  {
    if mis == [] {
    } else {
      var front, last := mis[..|mis| - 1], mis[|mis| - 1];
      GroupDescribes(front, path, isPrefix);
      assert mis == front + [last];
      forall m {
        GroupStep(Group(front, path, isPrefix), front, last, path, isPrefix, m);
      }
    }
  }

  /** One record for each distinct matching mount point; its count is the number of its mounts, and it is
      inconsistent exactly when two of its mounts show different roots. */
  lemma GroupIs(mis: seq<Entry>, path: string, isPrefix: bool, m: string)
    ensures m in Group(mis, path, isPrefix) <==> HasMatch(mis, path, isPrefix, m)
    ensures m in Group(mis, path, isPrefix) ==>
      && Group(mis, path, isPrefix)[m].target == m
      && Group(mis, path, isPrefix)[m].count == Count(mis, m) > 0
      && (Group(mis, path, isPrefix)[m].inconsistent <==> Disagree(mis, m))
  {
    GroupDescribes(mis, path, isPrefix);
    if m in Group(mis, path, isPrefix) {
      NoneCounted(mis, m);
      assert Shows(mis, m, Group(mis, path, isPrefix)[m]);
    }
  }

  /** The normal root of the first mount of a mount point; empty without one. */
  function FirstRoot(mis: seq<Entry>, m: string): (root: string) {
    if mis == [] then ""
    else if mis[0].mountPoint == m then NormalRoot(mis[0].root)
    else FirstRoot(mis[1..], m)
  }

  lemma {:induction false} FirstRootMore(mis: seq<Entry>, e: Entry, m: string)
    ensures FirstRoot(mis + [e], m) ==
      if (exists x :: x in mis && x.mountPoint == m) || e.mountPoint != m then FirstRoot(mis, m) else NormalRoot(e.root)
  {
    if mis == [] {
      assert [] + [e] == [e] && [e][1..] == [];
    } else {
      assert (mis + [e])[1..] == mis[1..] + [e];
      assert mis == [mis[0]] + mis[1..];
      FirstRootMore(mis[1..], e, m);
    }
  }

  lemma {:induction false} NoMountNoRoot(mis: seq<Entry>, m: string)
    requires forall e :: e in mis ==> e.mountPoint != m
    ensures FirstRoot(mis, m) == ""
  {
    if mis != [] {
      NoMountNoRoot(mis[1..], m);
    }
  }

  /** A record shows the root of the first mount of its mount point. */
  lemma {:induction false} GroupShowsFirst(mis: seq<Entry>, path: string, isPrefix: bool, m: string)
    requires m in Group(mis, path, isPrefix)
    ensures Group(mis, path, isPrefix)[m].subpath == FirstRoot(mis, m)
  {
    var front, last := mis[..|mis| - 1], mis[|mis| - 1];
    assert mis == front + [last];
    FirstRootMore(front, last, m);
    GroupIs(front, path, isPrefix, m);
    if m in Group(front, path, isPrefix) {
      GroupShowsFirst(front, path, isPrefix, m);
    } else {
      assert last.mountPoint == m && Matches(last, path, isPrefix);
      assert forall x :: x in front && x.mountPoint == m ==> Matches(x, path, isPrefix);
      assert !HasMatch(front, path, isPrefix, m);
    }
  }

  // ---------- the counts add up ----------

  ghost function Total(records: Records): (r: nat) {
    if records == map[] then 0
    else
      var m :| m in records;
      records[m].count + Total(records - {m})
  }

  lemma {:induction false} TotalWithout(records: Records, m: string)
    requires m in records
    ensures Total(records) == records[m].count + Total(records - {m})
    decreases |records|
  {
    var k :| k in records && Total(records) == records[k].count + Total(records - {k});
    if k != m {
      TotalWithout(records - {k}, m);
      TotalWithout(records - {m}, k);
      assert records - {k} - {m} == records - {m} - {k};
    }
  }

  lemma TotalAdd(records: Records, e: Entry)
    ensures Total(AddEntry(records, e)) == Total(records) + 1
  {
    var m := e.mountPoint;
    var records' := AddEntry(records, e);
    TotalWithout(records', m);
    assert records' - {m} == records - {m};
    if m in records {
      TotalWithout(records, m);
    } else {
      assert records - {m} == records;
    }
  }

  /** The counts sum up to the number of matching mounts. */
  lemma {:induction false} CountsAddUp(mis: seq<Entry>, path: string, isPrefix: bool)
    ensures Total(Group(mis, path, isPrefix)) == CountMatching(mis, path, isPrefix)
  {
    if mis != [] {
      var front, last := mis[..|mis| - 1], mis[|mis| - 1];
      CountsAddUp(front, path, isPrefix);
      TotalAdd(Group(front, path, isPrefix), last);
    }
  }

  // ---------- the target of an app pod ----------

  /** What `resolveTarget` returns: the target itself and the records of its sub-paths. */
  datatype MountItem = MountItem(podDeleted: bool, podExist: bool, base: TargetItem, subPaths: Records)

  function SubPathPrefix(target: string): (r: Option<string>) {
    match TargetPath.AroundCsiDirectory(target)
    case None => None
    case Some(pair) =>
      if TargetPath.GetPodUid(target) == "" || TargetPath.GetPVName(target) == "" then None
      else Some(TrimSuffix(pair.0, "/") + "/" + SUBPATH_DIRECTORY + "/" + TargetPath.GetPVName(target))
  }

  /** For a target as the kubelet makes it, the sub-paths are looked for next to its volumes; a target without app pod
      or volume name is not resolved. */
  lemma SubPathPrefixIs(prefix: string, uid: string, pv: string)
    requires TargetPath.ProperTarget(prefix, uid, pv)
    ensures SubPathPrefix(TargetPath.CsiTarget(prefix, uid, pv)) ==
      if prefix == "" || uid == "" || pv == "" then None
      else Some(prefix + "/" + uid + "/" + "volume-subpaths" + "/" + pv)
  {
    TargetPath.TargetParts(prefix, uid, pv);
    TargetPath.CsiSplits(prefix, uid, pv);
    PrefixOf(TargetPath.CsiTarget(prefix, uid, pv), prefix + "/" + uid, "/" + pv + "/" + "mount");
  }

  lemma PrefixOf(target: string, podDir: string, after: string)
    requires TargetPath.SplitsAt(target, podDir + "/", after)
    ensures SubPathPrefix(target) ==
      if TargetPath.GetPodUid(target) == "" || TargetPath.GetPVName(target) == "" then None
      else Some(podDir + "/" + "volume-subpaths" + "/" + TargetPath.GetPVName(target))
  {
    TargetPath.AroundIs(target, podDir + "/", after);
    assert (podDir + "/")[..|podDir|] == podDir;
  }

  method ResolveTarget(mis: seq<Entry>, deletedPods: map<string, bool>, target: string) returns (mi: Option<MountItem>)
    ensures mi.None? <==> SubPathPrefix(target).None?
    ensures mi.Some? ==>
      && mi.value.base.target == target && mi.value.base.count == Count(mis, target)
      && (mi.value.base.inconsistent <==> Disagree(mis, target))
      && mi.value.base.subpath == FirstRoot(mis, target)
      && mi.value.subPaths == Group(mis, SubPathPrefix(target).value, true)
      && (mi.value.podExist <==> TargetPath.GetPodUid(target) in deletedPods)
      && (mi.value.podDeleted <==>
          TargetPath.GetPodUid(target) in deletedPods && deletedPods[TargetPath.GetPodUid(target)])
  {
    var prefix := SubPathPrefix(target);
    if prefix.None? {
      return None;
    }
    var uid := TargetPath.GetPodUid(target);
    var items := ResolveTargetItem(mis, target, false);
    GroupIs(mis, target, false, target);
    NoneCounted(mis, target);
    forall m | m in items ensures m == target {
      GroupIs(mis, target, false, m);
    }
    var base := if target in items then items[target] else TargetItem(target, "", 0, false);
    if target in items {
      GroupShowsFirst(mis, target, false, target);
    } else {
      NoMountNoRoot(mis, target);
    }
    var subPaths := ResolveTargetItem(mis, prefix.value, true);
    mi := Some(MountItem(uid in deletedPods && deletedPods[uid], uid in deletedPods, base, subPaths));
  }
}
