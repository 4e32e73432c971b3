/** What the mounts of the sidecars show in the end: the volumes the builder made for them. */
module SidecarMeaning {
  import opened PodVolumes
  import opened Sidecar
  import opened SidecarNames
  import opened SidecarSafety
  import opened SidecarTheorems

  function SlotsOf(pair: Pair, kind: Kind): (slots: seq<Slot>)
    requires Accepted(pair)
  {
    SidecarSlots(pair.setting.value, kind)
  }

  /** A mount shows a source: it names a volume with it. */
  predicate Shows(volumes: seq<Volume>, m: VolumeMount, path: string, source: Source) {
    m.path == path && Volume(m.name, source) in volumes
  }

  /** Every mount of every sidecar shows what the builder meant it to show, but for claims that later pairs rewrote. */
  ghost predicate AllShow(p: Pod, pairs: seq<Pair>, kind: Kind)
    requires AllAccepted(pairs)
  {
    && |p.containers| >= |pairs|
    && forall j :: 0 <= j < |pairs| ==>
         SidecarShows(p.volumes, p.containers[|pairs| - 1 - j], SlotsOf(pairs[j], kind), pairs[j + 1..])
  }

  ghost predicate SidecarShows(volumes: seq<Volume>, c: PodContainer, slots: seq<Slot>, later: seq<Pair>) {
    && |c.mounts| == |slots|
    && forall i :: 0 <= i < |slots| ==> Shows(volumes, c.mounts[i], slots[i].path, RewrittenBy(slots[i].source, later))
  }

  // ---------- the volumes of its own ----------

  /** The mount is where the builder put it; it names the shared volume, or a volume with the builder's source. */
  predicate Placed(volumes: seq<Volume>, m: VolumeMount, slot: Slot, later: seq<Pair>) {
    && m.path == slot.path
    && if Shared(RoleName(slot.role)) then m.name == RoleName(slot.role)
       else Volume(m.name, RewrittenBy(slot.source, later)) in volumes
  }

  ghost predicate Serves(volumes: seq<Volume>, c: PodContainer, slots: seq<Slot>, later: seq<Pair>) {
    |c.mounts| == |slots| && forall i :: 0 <= i < |slots| ==> Placed(volumes, c.mounts[i], slots[i], later)
  }

  ghost predicate AllServe(p: Pod, pairs: seq<Pair>, kind: Kind)
    requires AllAccepted(pairs)
  {
    |p.containers| >= |pairs| && forall j :: 0 <= j < |pairs| ==> SidecarServes(p, pairs, kind, j)
  }

  ghost predicate SidecarServes(p: Pod, pairs: seq<Pair>, kind: Kind, j: nat)
    requires AllAccepted(pairs) && |p.containers| >= |pairs| && j < |pairs|
  {
    Serves(p.volumes, p.containers[|pairs| - 1 - j], SlotsOf(pairs[j], kind), pairs[j + 1..])
  }

  /** A volume that keeps its shared name is the role's own, and one with another name is added. */
  lemma NewVolumeIs(slots: seq<Slot>, taken: seq<Volume>, pair: Pair, c: string, i: nat)
    requires RolesDiffer(slots) && Reserved(c) && i < |slots|
    ensures var v := NewVolumes(slots, taken, c)[i];
      if Shared(RoleName(slots[i].role)) then v.name == RoleName(slots[i].role)
      else !Shared(v.name) && v in VolumesAfter(slots, taken, pair, c)
  {
    var name := RoleName(slots[i].role);
    var added := NewVolumes(slots, taken, c);
    StillReserved(c, "-");
    StillReserved(c + "-", name);
    RoleNamePlain(slots[i].role);
    assert !Reserved(JFS_DIR) && !Reserved(UPDATE_DB);
    if !Shared(name) {
      NewVolumesDiffer(slots, taken, c);
      KeptIs(added, taken);
      assert added[i] in added;
      NamedBehind(taken, pair, Kept(added, taken), added[i]);
    }
  }

  lemma StillShows(volumes: seq<Volume>, pair: Pair, kept: seq<Volume>, name: string, source: Source)
    requires Volume(name, source) in volumes
    ensures Volume(name, Rewritten(source, pair)) in RewrittenVolumes(volumes, pair) + kept
  {
    var i :| 0 <= i < |volumes| && volumes[i] == Volume(name, source);
    assert (RewrittenVolumes(volumes, pair) + kept)[i] == Volume(name, Rewritten(source, pair));
  }

  lemma StillServes(
    volumes: seq<Volume>, c: PodContainer, slots: seq<Slot>, later: seq<Pair>, pair: Pair, kept: seq<Volume>)
    requires Serves(volumes, c, slots, later)
    ensures Serves(RewrittenVolumes(volumes, pair) + kept, c, slots, later + [pair])
  {
    forall i | 0 <= i < |slots|
      ensures Placed(RewrittenVolumes(volumes, pair) + kept, c.mounts[i], slots[i], later + [pair])
    {
      assert Placed(volumes, c.mounts[i], slots[i], later);
      if !Shared(RoleName(slots[i].role)) {
        RewrittenByMore(slots[i].source, later, pair);
        StillShows(volumes, pair, kept, c.mounts[i].name, RewrittenBy(slots[i].source, later));
      }
    }
  }

  lemma NewSidecarServes(p: Pod, pair: Pair, kind: Kind, k: nat)
    requires Accepted(pair)
    ensures var q := Mutated(p, pair, kind, k); Serves(q.volumes, q.containers[0], SlotsOf(pair, kind), [])
  {
    var slots, c := SlotsOf(pair, kind), ContainerName(p.containers, k);
    var q := Mutated(p, pair, kind, k);
    ContainerNameReserved(p.containers, k);
    SidecarRoles(pair.setting.value, kind);
    SidecarMounts(pair.setting.value, kind);
    NewMounts(slots, p.volumes, c);
    forall i | 0 <= i < |slots| ensures Placed(q.volumes, q.containers[0].mounts[i], slots[i], []) {
      NewVolumeIs(slots, p.volumes, pair, c, i);
    }
  }

  lemma OldServes(p: Pod, q: Pod, pairs: seq<Pair>, pair: Pair, kept: seq<Volume>, kind: Kind, j: nat)
    requires AllAccepted(pairs + [pair]) && AllAccepted(pairs) && AllServe(p, pairs, kind) && j < |pairs|
    requires |q.containers| == |p.containers| + 1 && q.containers[1..] == p.containers
    requires q.volumes == RewrittenVolumes(p.volumes, pair) + kept
    ensures SidecarServes(q, pairs + [pair], kind, j)
  {
    var i := |pairs| - 1 - j;
    assert SidecarServes(p, pairs, kind, j);
    StillServes(p.volumes, p.containers[i], SlotsOf(pairs[j], kind), pairs[j + 1..], pair, kept);
    assert (pairs + [pair])[j + 1..] == pairs[j + 1..] + [pair];
    assert q.containers[1..][i] == q.containers[i + 1];
  }

  lemma StepServes(p: Pod, q: Pod, pairs: seq<Pair>, pair: Pair, kept: seq<Volume>, kind: Kind)
    requires AllAccepted(pairs) && Accepted(pair) && AllServe(p, pairs, kind)
    requires |q.containers| == |p.containers| + 1 && q.containers[1..] == p.containers
    requires q.volumes == RewrittenVolumes(p.volumes, pair) + kept
    requires Serves(q.volumes, q.containers[0], SlotsOf(pair, kind), [])
    ensures AllAccepted(pairs + [pair])
    ensures AllServe(q, pairs + [pair], kind)
  {
    var all := pairs + [pair];
    forall j | 0 <= j < |all| ensures SidecarServes(q, all, kind, j) {
      if j < |pairs| {
        OldServes(p, q, pairs, pair, kept, kind, j);
      } else {
        NewServes(q, pairs, pair, kind);
      }
    }
  }

  lemma NewServes(q: Pod, pairs: seq<Pair>, pair: Pair, kind: Kind)
    requires AllAccepted(pairs + [pair]) && Accepted(pair) && |q.containers| > |pairs|
    requires Serves(q.volumes, q.containers[0], SlotsOf(pair, kind), [])
    ensures SidecarServes(q, pairs + [pair], kind, |pairs|)
  {
    assert (pairs + [pair])[|pairs| + 1..] == [];
  }

  lemma ServesMutated(p: Pod, pairs: seq<Pair>, pair: Pair, kind: Kind)
    requires AllAccepted(pairs) && Accepted(pair) && AllServe(p, pairs, kind)
    ensures AllAccepted(pairs + [pair]) && AllServe(Mutated(p, pair, kind, |pairs|), pairs + [pair], kind)
  {
    NewSidecarServes(p, pair, kind, |pairs|);
    var kept := StepShape(p, pair, kind, |pairs|);
    StepServes(p, Mutated(p, pair, kind, |pairs|), pairs, pair, kept, kind);
  }

  ghost predicate Served(app: Pod, pairs: seq<Pair>, kind: Kind)
    requires AllAccepted(pairs)
  {
    AllServe(MutatedBy(app, pairs, kind), pairs, kind)
  }

  lemma ServedByMore(app: Pod, pairs: seq<Pair>, pair: Pair, kind: Kind)
    requires AllAccepted(pairs) && Accepted(pair) && Served(app, pairs, kind)
    ensures AllAccepted(pairs + [pair]) && Served(app, pairs + [pair], kind)
  {
    ServesMutated(MutatedBy(app, pairs, kind), pairs, pair, kind);
    MutatedByMore(app, pairs, pair, kind);
  }

  /** Renaming changes no meaning, whatever the app is like: every mount of every sidecar that is not shared is at the
      path the builder chose and names a volume with the source the builder gave it, but for claims that a later pair
      rewrote; the shared ones name the shared volume. */
  lemma {:induction false} SidecarsKeepTheirVolumes(app: Pod, pairs: seq<Pair>, kind: Kind)
    requires AllAccepted(pairs)
    ensures Served(app, pairs, kind)
  {
    if pairs != [] {
      var front, last := pairs[..|pairs| - 1], pairs[|pairs| - 1];
      SnocPairs(pairs);
      SidecarsKeepTheirVolumes(app, front, kind);
      ServedByMore(app, front, last, kind);
    }
  }

  // ---------- the shared volumes ----------

  function SharedSource(name: string): (source: Source) {
    if name == JFS_DIR then HostPath(MOUNT_POINT_PATH) else HostPath(UPDATE_DB_FILE)
  }

  lemma SharedNames()
    ensures forall name :: Shared(name) <==> name == "jfs-dir" || name == "updatedb"
  {
  }

  predicate SharedSlots(slots: seq<Slot>) {
    forall x :: x in slots && Shared(RoleName(x.role)) ==> x.source == SharedSource(RoleName(x.role))
  }

  predicate PlainSlots(slots: seq<Slot>) {
    forall x :: x in slots ==> !x.role.JfsDir? && !x.role.UpdateDb?
  }

  lemma SharedRole(role: Role)
    ensures RoleName(role) == JFS_DIR ==> role == JfsDir
    ensures RoleName(role) == UPDATE_DB ==> role == UpdateDb
  {
    if RoleName(role) == JFS_DIR {
      RoleNameInjective(role, JfsDir);
    } else if RoleName(role) == UPDATE_DB {
      RoleNameInjective(role, UpdateDb);
    }
  }

  lemma PlainShared(slots: seq<Slot>)
    requires PlainSlots(slots)
    ensures SharedSlots(slots)
  {
    forall x | x in slots ensures !Shared(RoleName(x.role)) {
      SharedRole(x.role);
    }
  }

  lemma SharedConcat(a: seq<Slot>, b: seq<Slot>)
    requires SharedSlots(a) && SharedSlots(b)
    ensures SharedSlots(a + b)
  {
  }

  lemma PodSlotsShared(s: VolumeSetting)
    ensures SharedSlots(PodSlots(s)) && SharedSlots(ServerlessSlots(s))
  {
    PlainShared(CheckMountSlots(s));
    assert SharedSlots(JfsDirSlots()) && SharedSlots(UpdateDbSlots(s));
    SharedConcat(JfsDirSlots(), UpdateDbSlots(s));
    SharedConcat(JfsDirSlots(), CheckMountSlots(s));
  }

  lemma ContainerShared(s: VolumeSetting)
    ensures SharedSlots(SidecarSlots(s, Container))
  {
    PodSlotsShared(s);
    PlainShared(JuiceSlots(s));
    PlainShared(CacheSlots(s));
    PlainShared(HostSlots(s));
    PlainShared(CheckMountSlots(s));
    SharedConcat(JuiceSlots(s), PodSlots(s));
    SharedConcat(JuiceSlots(s) + PodSlots(s), CacheSlots(s));
    SharedConcat(JuiceSlots(s) + PodSlots(s) + CacheSlots(s), HostSlots(s));
    SharedConcat(MountPodSlots(s), CheckMountSlots(s));
  }

  lemma ServerlessShared(s: VolumeSetting)
    ensures SharedSlots(SidecarSlots(s, Serverless))
  {
    PodSlotsShared(s);
    PlainShared(JuiceSlots(s));
    PlainShared(PortableCacheSlots(s));
    SharedConcat(JuiceSlots(s), ServerlessSlots(s));
    SharedConcat(JuiceSlots(s) + ServerlessSlots(s), PortableCacheSlots(s));
  }

  lemma SidecarShared(s: VolumeSetting, kind: Kind)
    ensures SharedSlots(SidecarSlots(s, kind))
  {
    match kind
    case Container => ContainerShared(s);
    case Serverless => ServerlessShared(s);
  }

  /** Some sidecar mounts the shared volume. */
  ghost predicate Uses(pairs: seq<Pair>, kind: Kind, name: string)
    requires AllAccepted(pairs)
  {
    exists j, i :: UsesAt(pairs, kind, name, j, i)
  }

  predicate UsesAt(pairs: seq<Pair>, kind: Kind, name: string, j: int, i: int)
    requires AllAccepted(pairs)
  {
    0 <= j < |pairs| && 0 <= i < |SlotsOf(pairs[j], kind)| && RoleName(SlotsOf(pairs[j], kind)[i].role) == name
  }

  /** If the app has volumes of the shared name, one of them ends up with the source the builders give it. */
  predicate AppAgrees(app: Pod, pairs: seq<Pair>, name: string) {
    Names(app.volumes, name) ==> FromApp(app, pairs, Volume(name, SharedSource(name)))
  }

  /** A volume that the app has, after the pairs. */
  predicate FromApp(app: Pod, pairs: seq<Pair>, v: Volume) {
    exists i :: 0 <= i < |app.volumes| && v == Volume(app.volumes[i].name, RewrittenBy(app.volumes[i].source, pairs))
  }

  /** With a volume of the name in the app, there is no other; without one, there is the builders' as soon as some
      sidecar uses it. */
  ghost predicate SharedInv(app: Pod, volumes: seq<Volume>, pairs: seq<Pair>, kind: Kind, name: string)
    requires AllAccepted(pairs)
  {
    if Names(app.volumes, name) then
      Names(volumes, name) && forall v :: v in volumes && v.name == name ==> FromApp(app, pairs, v)
    else
      && (forall v :: v in volumes && v.name == name ==> v.source == SharedSource(name))
      && (Uses(pairs, kind, name) ==> Volume(name, SharedSource(name)) in volumes)
  }

  /** What is added under a shared name comes from the slots, and only when the name is not there yet. */
  lemma KeptShared(slots: seq<Slot>, taken: seq<Volume>, pair: Pair, c: string, v: Volume)
    requires RolesDiffer(slots) && Reserved(c) && SharedSlots(slots)
    requires Shared(v.name) && v in Kept(NewVolumes(slots, taken, c), taken)
    ensures v.source == SharedSource(v.name) && !Names(taken, v.name)
  {
    var added := NewVolumes(slots, taken, c);
    NewVolumesDiffer(slots, taken, c);
    KeptIs(added, taken);
    var i :| 0 <= i < |added| && added[i] == v;
    NewVolumeIs(slots, taken, pair, c, i);
    assert slots[i] in slots;
  }

  lemma FromAppMore(app: Pod, pairs: seq<Pair>, pair: Pair, v: Volume)
    requires FromApp(app, pairs, v)
    ensures FromApp(app, pairs + [pair], v.(source := Rewritten(v.source, pair)))
  {
    var i :| 0 <= i < |app.volumes| && v == Volume(app.volumes[i].name, RewrittenBy(app.volumes[i].source, pairs));
    RewrittenByMore(app.volumes[i].source, pairs, pair);
    assert v.(source := Rewritten(v.source, pair)) ==
      Volume(app.volumes[i].name, RewrittenBy(app.volumes[i].source, pairs + [pair]));
  }

  lemma AppNamedStep(
    app: Pod, taken: seq<Volume>, slots: seq<Slot>, c: string, pairs: seq<Pair>, pair: Pair, name: string)
    requires RolesDiffer(slots) && Reserved(c) && SharedSlots(slots) && Shared(name)
    requires Names(taken, name) && forall v :: v in taken && v.name == name ==> FromApp(app, pairs, v)
    ensures var after := VolumesAfter(slots, taken, pair, c);
      Names(after, name) && forall v :: v in after && v.name == name ==> FromApp(app, pairs + [pair], v)
  {
    var after := VolumesAfter(slots, taken, pair, c);
    var kept := Kept(NewVolumes(slots, taken, c), taken);
    StillNamed(taken, pair, kept, name);
    forall v | v in after && v.name == name ensures FromApp(app, pairs + [pair], v) {
      if v in kept {
        KeptShared(slots, taken, pair, c, v);
        assert false;
      } else {
        var i :| 0 <= i < |taken| && RewrittenVolumes(taken, pair)[i] == v;
        assert taken[i] in taken;
        FromAppMore(app, pairs, pair, taken[i]);
      }
    }
  }

  lemma BuilderNamedStep(taken: seq<Volume>, slots: seq<Slot>, c: string, pair: Pair, name: string)
    requires RolesDiffer(slots) && Reserved(c) && SharedSlots(slots) && Shared(name)
    requires forall v :: v in taken && v.name == name ==> v.source == SharedSource(name)
    ensures var after := VolumesAfter(slots, taken, pair, c);
      && (forall v :: v in after && v.name == name ==> v.source == SharedSource(name))
      && (Volume(name, SharedSource(name)) in taken ==> Volume(name, SharedSource(name)) in after)
  {
    var after := VolumesAfter(slots, taken, pair, c);
    var kept := Kept(NewVolumes(slots, taken, c), taken);
    forall v | v in after && v.name == name ensures v.source == SharedSource(name) {
      if v in kept {
        KeptShared(slots, taken, pair, c, v);
      } else {
        var i :| 0 <= i < |taken| && RewrittenVolumes(taken, pair)[i] == v;
        assert taken[i] in taken;
      }
    }
    if Volume(name, SharedSource(name)) in taken {
      StillShows(taken, pair, kept, name, SharedSource(name));
    }
  }

  /** A slot of the name brings the volume, unless it is there. */
  lemma SlotBrings(taken: seq<Volume>, slots: seq<Slot>, c: string, pair: Pair, name: string, i: nat)
    requires RolesDiffer(slots) && Reserved(c) && SharedSlots(slots) && Shared(name)
    requires i < |slots| && RoleName(slots[i].role) == name
    requires forall v :: v in taken && v.name == name ==> v.source == SharedSource(name)
    ensures Volume(name, SharedSource(name)) in VolumesAfter(slots, taken, pair, c)
  {
    var added := NewVolumes(slots, taken, c);
    var kept := Kept(added, taken);
    assert slots[i] in slots;
    if Names(taken, name) {
      var j :| 0 <= j < |taken| && taken[j].name == name;
      assert taken[j] in taken;
      assert taken[j] == Volume(name, SharedSource(name));
      StillShows(taken, pair, kept, name, SharedSource(name));
    } else {
      NewVolumesDiffer(slots, taken, c);
      KeptIs(added, taken);
      assert added[i] in added && added[i] in kept;
      NamedBehind(taken, pair, kept, added[i]);
    }
  }

  lemma SharedStep(app: Pod, p: Pod, pairs: seq<Pair>, pair: Pair, kind: Kind, name: string)
    requires AllAccepted(pairs) && Accepted(pair) && Shared(name) && SharedInv(app, p.volumes, pairs, kind, name)
    ensures AllAccepted(pairs + [pair])
    ensures SharedInv(app, Mutated(p, pair, kind, |pairs|).volumes, pairs + [pair], kind, name)
  {
    var slots, c := SlotsOf(pair, kind), ContainerName(p.containers, |pairs|);
    ContainerNameReserved(p.containers, |pairs|);
    SidecarRoles(pair.setting.value, kind);
    SidecarShared(pair.setting.value, kind);
    assert Mutated(p, pair, kind, |pairs|).volumes == VolumesAfter(slots, p.volumes, pair, c);
    if Names(app.volumes, name) {
      AppNamedStep(app, p.volumes, slots, c, pairs, pair, name);
    } else {
      BuilderStep(app, p.volumes, pairs, pair, kind, c, name);
    }
  }

  lemma BuilderStep(app: Pod, taken: seq<Volume>, pairs: seq<Pair>, pair: Pair, kind: Kind, c: string, name: string)
    requires AllAccepted(pairs) && AllAccepted(pairs + [pair]) && Accepted(pair) && Shared(name) && Reserved(c)
    requires RolesDiffer(SlotsOf(pair, kind)) && SharedSlots(SlotsOf(pair, kind))
    requires !Names(app.volumes, name) && SharedInv(app, taken, pairs, kind, name)
    ensures SharedInv(app, VolumesAfter(SlotsOf(pair, kind), taken, pair, c), pairs + [pair], kind, name)
  {
    var slots := SlotsOf(pair, kind);
    BuilderNamedStep(taken, slots, c, pair, name);
    if Uses(pairs + [pair], kind, name) {
      UsesMore(pairs, pair, kind, name);
      if !Uses(pairs, kind, name) {
        var i :| 0 <= i < |slots| && RoleName(slots[i].role) == name;
        SlotBrings(taken, slots, c, pair, name, i);
      }
    }
  }

  lemma UsesMore(pairs: seq<Pair>, pair: Pair, kind: Kind, name: string)
    requires AllAccepted(pairs) && AllAccepted(pairs + [pair]) && Accepted(pair) && Uses(pairs + [pair], kind, name)
    ensures Uses(pairs, kind, name) ||
      exists i :: 0 <= i < |SlotsOf(pair, kind)| && RoleName(SlotsOf(pair, kind)[i].role) == name
  {
    var j, i :| UsesAt(pairs + [pair], kind, name, j, i);
    if j < |pairs| {
      assert UsesAt(pairs, kind, name, j, i);
    }
  }

  lemma {:induction false} SharedKept(app: Pod, pairs: seq<Pair>, kind: Kind, name: string)
    requires AllAccepted(pairs) && Shared(name)
    ensures SharedInv(app, MutatedBy(app, pairs, kind).volumes, pairs, kind, name)
  {
    if pairs == [] {
      forall v | v in app.volumes ensures FromApp(app, pairs, v) {
        var i :| 0 <= i < |app.volumes| && app.volumes[i] == v;
        assert v == Volume(app.volumes[i].name, RewrittenBy(app.volumes[i].source, pairs));
        assert v.name == name ==> Names(app.volumes, name);
      }
    } else {
      var front, last := pairs[..|pairs| - 1], pairs[|pairs| - 1];
      SnocPairs(pairs);
      SharedKept(app, front, kind, name);
      SharedStep(app, MutatedBy(app, front, kind), front, last, kind, name);
      MutatedByMore(app, front, last, kind);
    }
  }

  // ---------- exactly when ----------

  /** A shared volume ends up with the builders' source exactly when the app's volume of that name does, if it
      has one. */
  lemma SharedVolumeIff(app: Pod, pairs: seq<Pair>, kind: Kind, name: string)
    requires AllAccepted(pairs) && (name == "jfs-dir" || name == "updatedb") && Uses(pairs, kind, name)
    ensures Volume(name, SharedSource(name)) in MutatedBy(app, pairs, kind).volumes <==> AppAgrees(app, pairs, name)
  {
    SharedNames();
    var p, v := MutatedBy(app, pairs, kind), Volume(name, SharedSource(name));
    SharedKept(app, pairs, kind, name);
    AppKeepsItsVolumes(app, pairs, kind);
    if Names(app.volumes, name) && FromApp(app, pairs, v) {
      var i :| 0 <= i < |app.volumes| && v == Volume(app.volumes[i].name, RewrittenBy(app.volumes[i].source, pairs));
      assert p.volumes[i] == v;
    }
  }

  /** The shared volumes that some sidecar mounts are the builders' in the end. */
  ghost predicate SharedThere(p: Pod, pairs: seq<Pair>, kind: Kind)
    requires AllAccepted(pairs)
  {
    forall name :: Shared(name) && Uses(pairs, kind, name) ==> Volume(name, SharedSource(name)) in p.volumes
  }

  lemma SharedSlotSource(pair: Pair, kind: Kind, i: nat, later: seq<Pair>)
    requires Accepted(pair) && i < |SlotsOf(pair, kind)| && Shared(RoleName(SlotsOf(pair, kind)[i].role))
    ensures RewrittenBy(SlotsOf(pair, kind)[i].source, later) == SharedSource(RoleName(SlotsOf(pair, kind)[i].role))
  {
    var slot := SlotsOf(pair, kind)[i];
    SidecarShared(pair.setting.value, kind);
    assert slot in SlotsOf(pair, kind);
    NotRewritten(slot.source, later);
  }

  lemma OneShows(p: Pod, pairs: seq<Pair>, kind: Kind, j: nat)
    requires AllAccepted(pairs) && AllServe(p, pairs, kind) && SharedThere(p, pairs, kind) && j < |pairs|
    ensures SidecarShows(p.volumes, p.containers[|pairs| - 1 - j], SlotsOf(pairs[j], kind), pairs[j + 1..])
  {
    var c, slots, later := p.containers[|pairs| - 1 - j], SlotsOf(pairs[j], kind), pairs[j + 1..];
    assert SidecarServes(p, pairs, kind, j);
    forall i | 0 <= i < |slots|
      ensures Shows(p.volumes, c.mounts[i], slots[i].path, RewrittenBy(slots[i].source, later))
    {
      assert Placed(p.volumes, c.mounts[i], slots[i], later);
      if Shared(RoleName(slots[i].role)) {
        SharedSlotSource(pairs[j], kind, i, later);
        assert UsesAt(pairs, kind, RoleName(slots[i].role), j, i);
      }
    }
  }

  lemma ShownIsThere(p: Pod, pairs: seq<Pair>, kind: Kind, name: string)
    requires AllAccepted(pairs) && AllServe(p, pairs, kind) && AllShow(p, pairs, kind)
    requires Shared(name) && Uses(pairs, kind, name)
    ensures Volume(name, SharedSource(name)) in p.volumes
  {
    var j, i :| UsesAt(pairs, kind, name, j, i);
    var c, slots, later := p.containers[|pairs| - 1 - j], SlotsOf(pairs[j], kind), pairs[j + 1..];
    assert SidecarServes(p, pairs, kind, j) && SidecarShows(p.volumes, c, slots, later);
    assert Placed(p.volumes, c.mounts[i], slots[i], later);
    assert Shows(p.volumes, c.mounts[i], slots[i].path, RewrittenBy(slots[i].source, later));
    SharedSlotSource(pairs[j], kind, i, later);
  }

  /** For every app: all mounts of all sidecars show the volumes the builder made for them, but for claims that later
      pairs rewrote, exactly when for each shared name that some sidecar mounts the app has no volume of that name, or
      one that ends up with the builders' source. */
  lemma SidecarsSeeTheirVolumesIff(app: Pod, pairs: seq<Pair>, kind: Kind)
    requires AllAccepted(pairs)
    ensures AllShow(MutatedBy(app, pairs, kind), pairs, kind) <==>
      forall name :: Uses(pairs, kind, name) && (name == "jfs-dir" || name == "updatedb") ==>
        AppAgrees(app, pairs, name)
  {
    SharedNames();
    var p := MutatedBy(app, pairs, kind);
    SidecarsKeepTheirVolumes(app, pairs, kind);
    forall name | Shared(name) && Uses(pairs, kind, name)
      ensures Volume(name, SharedSource(name)) in p.volumes <==> AppAgrees(app, pairs, name)
    {
      SharedVolumeIff(app, pairs, kind, name);
    }
    if AllShow(p, pairs, kind) {
      forall name | Shared(name) && Uses(pairs, kind, name) ensures AppAgrees(app, pairs, name) {
        ShownIsThere(p, pairs, kind, name);
      }
    }
    if SharedThere(p, pairs, kind) {
      forall j | 0 <= j < |pairs|
        ensures SidecarShows(p.volumes, p.containers[|pairs| - 1 - j], SlotsOf(pairs[j], kind), pairs[j + 1..])
      {
        OneShows(p, pairs, kind, j);
      }
    }
  }

  lemma JfsDirIsUsed(pair: Pair, kind: Kind)
    requires Accepted(pair)
    ensures AllAccepted([pair]) && Uses([pair], kind, JFS_DIR)
  {
    var slots, slot := SlotsOf(pair, kind), JfsDirSlots()[0];
    assert slot in PodSlots(pair.setting.value) && slot in ServerlessSlots(pair.setting.value);
    if kind.Container? {
      assert slot in MountPodSlots(pair.setting.value);
    }
    assert slot in slots;
    var i :| 0 <= i < |slots| && slots[i] == slot;
    assert UsesAt([pair], kind, JFS_DIR, 0, i);
  }

  /** An app with an empty dir called like the shared directory: the sidecar mounts that. */
  lemma OwnJfsDirIsShown(pair: Pair, kind: Kind)
    requires Accepted(pair)
    ensures AllAccepted([pair])
    ensures var app := Pod([], [Volume(JFS_DIR, EmptyDir(""))], map[]);
      WellFormedPod(app) && !AllShow(MutatedBy(app, [pair], kind), [pair], kind)
  {
    var app := Pod([], [Volume(JFS_DIR, EmptyDir(""))], map[]);
    JfsDirIsUsed(pair, kind);
    SidecarsSeeTheirVolumesIff(app, [pair], kind);
    assert app.volumes[0].name == JFS_DIR;
    NotRewritten(EmptyDir(""), [pair]);
    assert !AppAgrees(app, [pair], JFS_DIR);
  }
}
