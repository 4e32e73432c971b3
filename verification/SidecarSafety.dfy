/** What injecting sidecars keeps: a well-formed pod, and what every mount of every container shows. */
module SidecarSafety {
  import opened PodVolumes
  import opened Seqs
  import opened Sidecar
  import opened SidecarNames
  import opened Strings

  /** Every mount of these containers has a volume. */
  ghost predicate MountsFound(containers: seq<PodContainer>, volumes: seq<Volume>) {
    forall c, m :: c in containers && m in c.mounts ==> Names(volumes, m.name)
  }

  ghost predicate WellFormedPod(p: Pod) {
    && Distinct(ContainerNames(p.containers))
    && Distinct(VolumeNames(p.volumes))
    && MountsFound(p.containers, p.volumes)
  }

  /** The app uses none of the names that start like the mount container's. */
  predicate Unreserved(p: Pod) {
    && (forall c :: c in p.containers ==> !Reserved(c.name))
    && (forall v :: v in p.volumes ==> !Reserved(v.name))
  }

  /** `k` sidecars, the latest first, and then the containers of the app. */
  predicate InFront(containers: seq<PodContainer>, app: seq<PodContainer>, k: nat) {
    && |containers| == k + |app|
    && containers[k..] == app
    && forall i :: 0 <= i < k ==> containers[i].name == SidecarName(k - 1 - i)
  }

  predicate IsRenamed(name: string, j: nat, r: Role) {
    name == SidecarName(j) + "-" + RoleName(r)
  }

  ghost predicate KnownName(name: string, k: nat) {
    !Reserved(name) || exists j: nat, r :: j < k && IsRenamed(name, j, r)
  }

  ghost predicate KnownNames(volumes: seq<Volume>, k: nat) {
    forall v :: v in volumes ==> KnownName(v.name, k)
  }

  // ---------- the container's name ----------

  /** The name only changes at the first sidecar, which is the last of them. */
  lemma {:induction false} NameUpTo(containers: seq<PodContainer>, app: seq<PodContainer>, k: nat, i: nat)
    requires InFront(containers, app, k) && i <= |containers|
    requires forall c :: c in app ==> !Reserved(c.name)
    ensures ContainerName(containers[..i], k) == if i < k then MOUNT_CONTAINER else SidecarName(k)
  {
    if i > 0 {
      NameUpTo(containers, app, k, i - 1);
      assert containers[..i][..i - 1] == containers[..i - 1];
      var last := containers[i - 1];
      if i < k {
        SidecarNamesDiffer(k - i, 0);
      } else if i > k {
        assert last == app[i - 1 - k];
      }
    }
  }

  lemma NewContainerName(containers: seq<PodContainer>, app: seq<PodContainer>, k: nat)
    requires InFront(containers, app, k)
    requires forall c :: c in app ==> !Reserved(c.name)
    ensures ContainerName(containers, k) == SidecarName(k)
    ensures forall c :: c in containers ==> c.name != SidecarName(k)
  {
    NameUpTo(containers, app, k, |containers|);
    assert containers[..|containers|] == containers;
    NameIsNew(containers, app, k);
  }

  lemma NameIsNew(containers: seq<PodContainer>, app: seq<PodContainer>, k: nat)
    requires InFront(containers, app, k)
    requires forall c :: c in app ==> !Reserved(c.name)
    ensures forall c :: c in containers ==> c.name != SidecarName(k)
  {
    forall c | c in containers ensures c.name != SidecarName(k) {
      var i :| 0 <= i < |containers| && containers[i] == c;
      if i < k {
        SidecarNamesDiffer(k - 1 - i, k);
      } else {
        assert c == app[i - k];
      }
    }
  }

  // ---------- the new volumes ----------

  function NewVolumes(slots: seq<Slot>, taken: seq<Volume>, c: string): (r: seq<Volume>)
    ensures |r| == |slots|
    ensures forall i :: 0 <= i < |r| ==> r[i] == Volume(NewName(RoleName(slots[i].role), taken, c), slots[i].source)
  {
    RenamedVolumes(VolumesOf(slots), taken, c)
  }

  /** The name of a mount container is reserved, and so are the names made from it. */
  lemma {:induction false} ContainerNameReserved(containers: seq<PodContainer>, k: nat)
    ensures Reserved(ContainerName(containers, k))
  {
    if containers != [] {
      var front := containers[..|containers| - 1];
      ContainerNameReserved(front, k);
      StillReserved(ContainerName(front, k), "-" + Itoa(k));
      assert ContainerName(front, k) + ("-" + Itoa(k)) == ContainerName(front, k) + "-" + Itoa(k);
    }
  }

  lemma StillReserved(name: string, suffix: string)
    requires Reserved(name)
    ensures Reserved(name + suffix)
  {
  }

  /** New names stay apart from each other and from the names of the roles. */
  lemma NewNamesDiffer(r: Role, q: Role, taken: seq<Volume>, c: string)
    requires r != q && Reserved(c)
    ensures NewName(RoleName(r), taken, c) != NewName(RoleName(q), taken, c)
    ensures NewName(RoleName(r), taken, c) != RoleName(q)
  {
    RoleNamePlain(r);
    RoleNamePlain(q);
    StillReserved(c, "-");
    StillReserved(c + "-", RoleName(r));
    StillReserved(c + "-", RoleName(q));
    if RoleName(r) == RoleName(q) {
      RoleNameInjective(r, q);
    }
    if c + "-" + RoleName(r) == c + "-" + RoleName(q) {
      SamePrefix(c + "-", RoleName(r), RoleName(q));
    }
  }

  lemma NewVolumesDiffer(slots: seq<Slot>, taken: seq<Volume>, c: string)
    requires RolesDiffer(slots) && Reserved(c)
    ensures Distinct(VolumeNames(NewVolumes(slots, taken, c)))
  {
    var names := VolumeNames(NewVolumes(slots, taken, c));
    forall i, j | 0 <= i < j < |names| ensures names[i] != names[j] {
      NewNamesDiffer(slots[i].role, slots[j].role, taken, c);
    }
  }

  lemma RenamedIsNew(name: string, k: nat, r: Role, other: string)
    requires IsRenamed(name, k, r) && KnownName(other, k)
    ensures other != name
  {
    RenamedReserved(k, RoleName(r));
    if Reserved(other) {
      var j: nat, q :| j < k && IsRenamed(other, j, q);
      if other == name {
        RenamedInjective(j, q, k, r);
      }
    }
  }

  lemma {:induction false} KeptIs(volumes: seq<Volume>, taken: seq<Volume>)
    requires Distinct(VolumeNames(volumes))
    ensures forall v :: v in Kept(volumes, taken) <==> v in volumes && !Skipped(v, taken)
    ensures Distinct(VolumeNames(Kept(volumes, taken)))
  {
    if volumes != [] {
      var front, last := volumes[..|volumes| - 1], volumes[|volumes| - 1];
      assert volumes == front + [last];
      assert VolumeNames(volumes) == VolumeNames(front) + [last.name];
      DistinctConcat(VolumeNames(front), [last.name]);
      KeptIs(front, taken);
      var kept := Kept(front, taken);
      if !Skipped(last, taken) {
        assert VolumeNames(kept + [last]) == VolumeNames(kept) + [last.name];
        forall i | 0 <= i < |kept| ensures kept[i].name != last.name {
          assert kept[i] in front;
          assert kept[i].name in VolumeNames(front) by {
            var j :| 0 <= j < |front| && front[j] == kept[i];
            assert VolumeNames(front)[j] == kept[i].name;
          }
        }
        DistinctConcat(VolumeNames(kept), [last.name]);
      }
    }
  }

  function VolumesAfter(slots: seq<Slot>, taken: seq<Volume>, pair: Pair, c: string): (r: seq<Volume>) {
    RewrittenVolumes(taken, pair) + Kept(NewVolumes(slots, taken, c), taken)
  }

  /** No volume of the pod has the name that a clashing volume would get. */
  predicate RenamesFree(slots: seq<Slot>, taken: seq<Volume>, c: string) {
    forall x :: x in slots && Clashes(RoleName(x.role), taken) ==> !Names(taken, c + "-" + RoleName(x.role))
  }

  predicate AllNew(volumes: seq<Volume>, taken: seq<Volume>) {
    forall v :: v in volumes ==> !Names(taken, v.name)
  }

  lemma RenamedIsKept(slot: Slot, taken: seq<Volume>, c: string)
    requires Reserved(c) && Clashes(RoleName(slot.role), taken)
    ensures !Skipped(Volume(c + "-" + RoleName(slot.role), slot.source), taken)
  {
    StillReserved(c, "-");
    StillReserved(c + "-", RoleName(slot.role));
    assert !Reserved(JFS_DIR) && !Reserved(UPDATE_DB);
  }

  lemma KeptNewIff(slots: seq<Slot>, taken: seq<Volume>, c: string)
    requires RolesDiffer(slots) && Reserved(c)
    ensures AllNew(Kept(NewVolumes(slots, taken, c), taken), taken) <==> RenamesFree(slots, taken, c)
  {
    var added := NewVolumes(slots, taken, c);
    NewVolumesDiffer(slots, taken, c);
    KeptIs(added, taken);
    if RenamesFree(slots, taken, c) {
      forall v | v in Kept(added, taken) ensures !Names(taken, v.name) {
        var i :| 0 <= i < |added| && added[i] == v;
        assert slots[i] in slots;
      }
    } else {
      var x :| x in slots && Clashes(RoleName(x.role), taken) && Names(taken, c + "-" + RoleName(x.role));
      var i :| 0 <= i < |slots| && slots[i] == x;
      RenamedIsKept(x, taken, c);
      assert added[i] in added && added[i] in Kept(added, taken);
    }
  }

  lemma RewrittenNames(taken: seq<Volume>, pair: Pair)
    ensures VolumeNames(RewrittenVolumes(taken, pair)) == VolumeNames(taken)
  {
  }

  /** The volumes' names stay distinct exactly when the new names of the clashing ones are free. */
  lemma VolumesDistinctIff(slots: seq<Slot>, taken: seq<Volume>, pair: Pair, c: string)
    requires RolesDiffer(slots) && Distinct(VolumeNames(taken)) && Reserved(c)
    ensures Distinct(VolumeNames(VolumesAfter(slots, taken, pair, c))) <==> RenamesFree(slots, taken, c)
  {
    var kept := Kept(NewVolumes(slots, taken, c), taken);
    NewVolumesDiffer(slots, taken, c);
    KeptIs(NewVolumes(slots, taken, c), taken);
    KeptNewIff(slots, taken, c);
    RewrittenNames(taken, pair);
    NamesConcat(RewrittenVolumes(taken, pair), kept);
    DistinctConcat(VolumeNames(taken), VolumeNames(kept));
    NamesApartIff(taken, kept);
  }

  // ---------- the names of earlier sidecars ----------

  lemma SidecarNameReserved(k: nat)
    ensures Reserved(SidecarName(k))
  {
  }

  /** Earlier sidecars only took names that no later one gives. */
  lemma KnownNamesFree(slots: seq<Slot>, taken: seq<Volume>, k: nat)
    requires KnownNames(taken, k)
    ensures RenamesFree(slots, taken, SidecarName(k))
  {
    forall x | x in slots && Clashes(RoleName(x.role), taken)
      ensures !Names(taken, SidecarName(k) + "-" + RoleName(x.role))
    {
      var name := SidecarName(k) + "-" + RoleName(x.role);
      assert IsRenamed(name, k, x.role);
      forall i | 0 <= i < |taken| ensures taken[i].name != name {
        assert taken[i] in taken;
        RenamedIsNew(name, k, x.role, taken[i].name);
      }
    }
  }

  lemma KnownLater(name: string, k: nat)
    requires KnownName(name, k)
    ensures KnownName(name, k + 1)
  {
    if Reserved(name) {
      var j: nat, r :| j < k && IsRenamed(name, j, r);
    }
  }

  lemma RewrittenKnown(taken: seq<Volume>, pair: Pair, k: nat)
    requires KnownNames(taken, k)
    ensures KnownNames(RewrittenVolumes(taken, pair), k + 1)
  {
    var rewritten := RewrittenVolumes(taken, pair);
    forall v | v in rewritten ensures KnownName(v.name, k + 1) {
      var i :| 0 <= i < |rewritten| && rewritten[i] == v;
      assert taken[i] in taken;
      KnownLater(v.name, k);
    }
  }

  lemma NewNameKnown(r: Role, taken: seq<Volume>, k: nat)
    ensures KnownName(NewName(RoleName(r), taken, SidecarName(k)), k + 1)
  {
    if Clashes(RoleName(r), taken) {
      assert IsRenamed(SidecarName(k) + "-" + RoleName(r), k, r);
    } else {
      RoleNamePlain(r);
    }
  }

  lemma KeptKnown(slots: seq<Slot>, taken: seq<Volume>, k: nat)
    requires RolesDiffer(slots)
    ensures KnownNames(Kept(NewVolumes(slots, taken, SidecarName(k)), taken), k + 1)
  {
    var added := NewVolumes(slots, taken, SidecarName(k));
    SidecarNameReserved(k);
    NewVolumesDiffer(slots, taken, SidecarName(k));
    KeptIs(added, taken);
    forall v | v in Kept(added, taken) ensures KnownName(v.name, k + 1) {
      var i :| 0 <= i < |added| && added[i] == v;
      NewNameKnown(slots[i].role, taken, k);
    }
  }

  lemma VolumesStayDistinct(slots: seq<Slot>, taken: seq<Volume>, pair: Pair, k: nat)
    requires RolesDiffer(slots) && Distinct(VolumeNames(taken)) && KnownNames(taken, k)
    ensures Distinct(VolumeNames(VolumesAfter(slots, taken, pair, SidecarName(k))))
    ensures KnownNames(VolumesAfter(slots, taken, pair, SidecarName(k)), k + 1)
  {
    SidecarNameReserved(k);
    KnownNamesFree(slots, taken, k);
    VolumesDistinctIff(slots, taken, pair, SidecarName(k));
    RewrittenKnown(taken, pair, k);
    KeptKnown(slots, taken, k);
    KnownConcat(RewrittenVolumes(taken, pair), Kept(NewVolumes(slots, taken, SidecarName(k)), taken), k + 1);
  }

  lemma NamesConcat(a: seq<Volume>, b: seq<Volume>)
    ensures VolumeNames(a + b) == VolumeNames(a) + VolumeNames(b)
  {
  }

  lemma KnownConcat(a: seq<Volume>, b: seq<Volume>, k: nat)
    requires KnownNames(a, k) && KnownNames(b, k)
    ensures KnownNames(a + b, k)
  {
  }

  lemma NamesApartIff(a: seq<Volume>, b: seq<Volume>)
    ensures Apart(VolumeNames(a), VolumeNames(b)) <==> AllNew(b, a)
  {
    if Apart(VolumeNames(a), VolumeNames(b)) {
      forall v, i | v in b && 0 <= i < |a| ensures a[i].name != v.name {
        var j :| 0 <= j < |b| && b[j] == v;
        assert VolumeNames(a)[i] in VolumeNames(a) && VolumeNames(b)[j] in VolumeNames(b);
      }
    }
    if AllNew(b, a) {
      forall x | x in VolumeNames(a) ensures x !in VolumeNames(b) {
        var i :| 0 <= i < |a| && VolumeNames(a)[i] == x;
        forall j | 0 <= j < |b| ensures VolumeNames(b)[j] != x {
          assert b[j] in b && a[i].name == x;
        }
      }
    }
  }

  // ---------- the new mounts ----------

  lemma FoundAt(mounts: seq<VolumeMount>, name: string, i: nat)
    requires i < |mounts| && mounts[i].name == name && forall l :: 0 <= l < i ==> mounts[l].name != name
    ensures MountIndex(mounts, name, 0) == i
  {
  }

  /** Volumes and mounts are renamed alike: mount number `j` keeps naming volume number `j`. */
  ghost predicate RenamedUpTo(mounts: seq<VolumeMount>, slots: seq<Slot>, taken: seq<Volume>, c: string, i: nat) {
    && |mounts| == |slots|
    && forall j :: 0 <= j < |slots| ==> mounts[j] == VolumeMount(
         if j < i then NewName(RoleName(slots[j].role), taken, c) else RoleName(slots[j].role), slots[j].path)
  }

  lemma RenamedStep(m: seq<VolumeMount>, slots: seq<Slot>, taken: seq<Volume>, c: string, i: nat)
    requires RolesDiffer(slots) && Reserved(c) && i < |slots| && RenamedUpTo(m, slots, taken, c, i)
    ensures var name := RoleName(slots[i].role);
      MountIndex(m, name, 0) == i &&
      RenamedUpTo(m[i := m[i].(name := NewName(name, taken, c))], slots, taken, c, i + 1)
  {
    forall l | 0 <= l < i ensures m[l].name != RoleName(slots[i].role) {
      NewNamesDiffer(slots[l].role, slots[i].role, taken, c);
    }
    FoundAt(m, RoleName(slots[i].role), i);
  }

  lemma {:induction false} RenamedAlike(slots: seq<Slot>, taken: seq<Volume>, c: string, i: nat)
    requires RolesDiffer(slots) && Reserved(c) && slots != [] && i <= |slots|
    ensures RenamedUpTo(RenamedMounts(VolumesOf(slots)[..i], taken, c, MountsOf(slots)), slots, taken, c, i)
  {
    if i > 0 {
      RenamedAlike(slots, taken, c, i - 1);
      RenamedNext(slots, taken, c, i - 1);
    }
  }

  lemma RenamedNext(slots: seq<Slot>, taken: seq<Volume>, c: string, i: nat)
    requires RolesDiffer(slots) && Reserved(c) && i < |slots|
    requires RenamedUpTo(RenamedMounts(VolumesOf(slots)[..i], taken, c, MountsOf(slots)), slots, taken, c, i)
    ensures RenamedUpTo(RenamedMounts(VolumesOf(slots)[..i + 1], taken, c, MountsOf(slots)), slots, taken, c, i + 1)
  {
    var m := RenamedMounts(VolumesOf(slots)[..i], taken, c, MountsOf(slots));
    RenamedStep(m, slots, taken, c, i);
    RenamedMore(VolumesOf(slots), taken, c, MountsOf(slots), i);
    if !Clashes(RoleName(slots[i].role), taken) {
      assert m[i := m[i].(name := RoleName(slots[i].role))] == m;
    }
  }

  lemma RenamedMore(volumes: seq<Volume>, taken: seq<Volume>, container: string, mounts: seq<VolumeMount>, i: nat)
    requires mounts != [] && i < |volumes|
    ensures var m := RenamedMounts(volumes[..i], taken, container, mounts);
      var j := MountIndex(m, volumes[i].name, 0);
      RenamedMounts(volumes[..i + 1], taken, container, mounts) ==
        if Clashes(volumes[i].name, taken) then m[j := m[j].(name := container + "-" + volumes[i].name)] else m
  {
    assert volumes[..i + 1][..i] == volumes[..i];
  }

  lemma NewMounts(slots: seq<Slot>, taken: seq<Volume>, c: string)
    requires RolesDiffer(slots) && Reserved(c) && slots != []
    ensures var mounts := RenamedMounts(VolumesOf(slots), taken, c, MountsOf(slots));
      forall j :: 0 <= j < |slots| ==>
        mounts[j] == VolumeMount(NewVolumes(slots, taken, c)[j].name, slots[j].path)
  {
    RenamedAlike(slots, taken, c, |slots|);
    assert VolumesOf(slots)[..|slots|] == VolumesOf(slots);
  }
}
