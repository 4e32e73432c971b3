/** The main results about sidecars, for any number of pairs of claims and volumes. */
module SidecarTheorems {
  import opened PodVolumes
  import opened Seqs
  import opened Sidecar
  import opened SidecarNames
  import opened SidecarSafety
  import opened Strings
  import GoPath

  predicate AllAccepted(pairs: seq<Pair>) {
    forall p :: p in pairs ==> Accepted(p)
  }

  /** The source of a volume after the pairs have rewritten what belongs to their claims. */
  function RewrittenBy(source: Source, pairs: seq<Pair>): (r: Source) {
    if pairs == [] then source
    else Rewritten(RewrittenBy(source, pairs[..|pairs| - 1]), pairs[|pairs| - 1])
  }

  // ---------- one step ----------

  lemma MountsStayFound(p: Pod, pair: Pair, kind: Kind, k: nat)
    requires Accepted(pair) && MountsFound(p.containers, p.volumes)
    ensures var q := Mutated(p, pair, kind, k);
      var slots, c := SidecarSlots(pair.setting.value, kind), ContainerName(p.containers, k);
      q.volumes == VolumesAfter(slots, p.volumes, pair, c) && MountsFound(q.containers, q.volumes)
  {
    var slots, c := SidecarSlots(pair.setting.value, kind), ContainerName(p.containers, k);
    var q := Mutated(p, pair, kind, k);
    var added := NewVolumes(slots, p.volumes, c);
    SidecarMounts(pair.setting.value, kind);
    SidecarRoles(pair.setting.value, kind);
    ContainerNameReserved(p.containers, k);
    NewMounts(slots, p.volumes, c);
    NewVolumesDiffer(slots, p.volumes, c);
    KeptIs(added, p.volumes);
    forall d, m | d in q.containers && m in d.mounts ensures Names(q.volumes, m.name) {
      if d == q.containers[0] {
        var j :| 0 <= j < |d.mounts| && d.mounts[j] == m;
        assert added[j].name == m.name;
        if Skipped(added[j], p.volumes) {
          StillNamed(p.volumes, pair, Kept(added, p.volumes), m.name);
        } else {
          assert added[j] in Kept(added, p.volumes);
          NamedBehind(p.volumes, pair, Kept(added, p.volumes), added[j]);
        }
      } else {
        assert d in p.containers;
        StillNamed(p.volumes, pair, Kept(added, p.volumes), m.name);
      }
    }
  }

  /** What the names of the pod must leave free, checked on the pod as it is before the injection. */
  predicate NamesFree(p: Pod, slots: seq<Slot>, k: nat) {
    && (forall d :: d in p.containers ==> d.name != ContainerName(p.containers, k))
    && RenamesFree(slots, p.volumes, ContainerName(p.containers, k))
  }

  lemma ContainersDistinctIff(c: PodContainer, containers: seq<PodContainer>)
    requires Distinct(ContainerNames(containers))
    ensures Distinct(ContainerNames([c] + containers)) <==> forall d :: d in containers ==> d.name != c.name
  {
    var names := ContainerNames(containers);
    assert ContainerNames([c] + containers) == [c.name] + names;
    DistinctConcat([c.name], names);
    assert Apart([c.name], names) <==> c.name !in names;
    assert forall i :: 0 <= i < |names| ==> names[i] == containers[i].name && containers[i] in containers;
    forall d | d in containers ensures d.name in names {
      var i :| 0 <= i < |containers| && containers[i] == d;
      assert names[i] == d.name;
    }
  }

  /** Whatever names an app uses: one injection keeps the pod well-formed exactly when the new name of the mount
      container is free, and so is the new name of each volume that has to give way. */
  lemma InjectionWellFormedIff(p: Pod, pair: Pair, kind: Kind, k: nat)
    requires Accepted(pair) && WellFormedPod(p)
    ensures WellFormedPod(Mutated(p, pair, kind, k)) <==> NamesFree(p, SidecarSlots(pair.setting.value, kind), k)
  {
    var q := Mutated(p, pair, kind, k);
    assert q.containers == [q.containers[0]] + p.containers;
    ContainersDistinctIff(q.containers[0], p.containers);
    MountsStayFound(p, pair, kind, k);
    SidecarRoles(pair.setting.value, kind);
    ContainerNameReserved(p.containers, k);
    VolumesDistinctIff(SidecarSlots(pair.setting.value, kind), p.volumes, pair, ContainerName(p.containers, k));
  }

  lemma StillNamed(taken: seq<Volume>, pair: Pair, kept: seq<Volume>, name: string)
    requires Names(taken, name)
    ensures Names(RewrittenVolumes(taken, pair) + kept, name)
  {
    var i :| 0 <= i < |taken| && taken[i].name == name;
    assert (RewrittenVolumes(taken, pair) + kept)[i].name == name;
  }

  lemma NamedBehind(taken: seq<Volume>, pair: Pair, kept: seq<Volume>, v: Volume)
    requires v in kept
    ensures v in RewrittenVolumes(taken, pair) + kept
    ensures Names(RewrittenVolumes(taken, pair) + kept, v.name)
  {
    var i :| 0 <= i < |kept| && kept[i] == v;
    assert (RewrittenVolumes(taken, pair) + kept)[|taken| + i] == v;
  }

  // ---------- any number of pairs ----------

  ghost predicate Inv(p: Pod, app: Pod, k: nat) {
    WellFormedPod(p) && KnownNames(p.volumes, k) && InFront(p.containers, app.containers, k)
  }

  lemma StepKeeps(p: Pod, app: Pod, pair: Pair, kind: Kind, k: nat)
    requires Accepted(pair) && Unreserved(app) && Inv(p, app, k)
    ensures Inv(Mutated(p, pair, kind, k), app, k + 1)
  {
    var q := Mutated(p, pair, kind, k);
    var slots := SidecarSlots(pair.setting.value, kind);
    NewContainerName(p.containers, app.containers, k);
    KnownNamesFree(slots, p.volumes, k);
    InjectionWellFormedIff(p, pair, kind, k);
    MountsStayFound(p, pair, kind, k);
    SidecarRoles(pair.setting.value, kind);
    VolumesStayDistinct(slots, p.volumes, pair, k);
    assert q.containers == [q.containers[0]] + p.containers;
    FrontGrows(p.containers, q.containers[0], app.containers, k);
  }

  lemma FrontGrows(containers: seq<PodContainer>, c: PodContainer, app: seq<PodContainer>, k: nat)
    requires InFront(containers, app, k) && c.name == SidecarName(k)
    ensures InFront([c] + containers, app, k + 1)
  {
    assert ([c] + containers)[k + 1..] == containers[k..];
  }

  lemma {:induction false} RunKeeps(app: Pod, pairs: seq<Pair>, kind: Kind)
    requires AllAccepted(pairs) && Unreserved(app) && WellFormedPod(app)
    ensures Inv(MutatedBy(app, pairs, kind), app, |pairs|)
  {
    if pairs == [] {
      forall v | v in app.volumes ensures KnownName(v.name, 0) {
      }
    } else {
      RunKeeps(app, pairs[..|pairs| - 1], kind);
      StepKeeps(MutatedBy(app, pairs[..|pairs| - 1], kind), app, pairs[|pairs| - 1], kind, |pairs| - 1);
    }
  }

  /** A well-formed pod that uses no reserved name stays well-formed: container names and volume names stay
      distinct, every mount has its volume, and the app's containers stay as they are, behind one sidecar per pair. */
  lemma SidecarsKeepPodWellFormed(app: Pod, pairs: seq<Pair>, kind: Kind)
    requires AllAccepted(pairs) && Unreserved(app) && WellFormedPod(app)
    ensures var p := MutatedBy(app, pairs, kind);
      WellFormedPod(p) && |p.containers| == |pairs| + |app.containers| && p.containers[|pairs|..] == app.containers
  {
    RunKeeps(app, pairs, kind);
  }

  // ---------- what the app's mounts show ----------

  lemma RewrittenByMore(source: Source, pairs: seq<Pair>, pair: Pair)
    ensures RewrittenBy(source, pairs + [pair]) == Rewritten(RewrittenBy(source, pairs), pair)
  {
    assert (pairs + [pair])[..|pairs|] == pairs;
  }

  lemma StepShape(p: Pod, pair: Pair, kind: Kind, k: nat) returns (kept: seq<Volume>)
    requires Accepted(pair)
    ensures var q := Mutated(p, pair, kind, k);
      && q.volumes == RewrittenVolumes(p.volumes, pair) + kept
      && |q.containers| == |p.containers| + 1 && q.containers[1..] == p.containers
      && q.labels == p.labels[INJECT_DONE := "true"]
  {
    var built := VolumesOf(SidecarSlots(pair.setting.value, kind));
    kept := Kept(RenamedVolumes(built, p.volumes, ContainerName(p.containers, k)), p.volumes);
  }

  lemma KeepsStep(app: Pod, volumes: seq<Volume>, pairs: seq<Pair>, pair: Pair, kept: seq<Volume>)
    requires KeepsVolumes(app, volumes, pairs)
    ensures KeepsVolumes(app, RewrittenVolumes(volumes, pair) + kept, pairs + [pair])
  {
    forall i | 0 <= i < |app.volumes|
      ensures (RewrittenVolumes(volumes, pair) + kept)[i] ==
        Volume(app.volumes[i].name, RewrittenBy(app.volumes[i].source, pairs + [pair]))
    {
      RewrittenByMore(app.volumes[i].source, pairs, pair);
      assert (RewrittenVolumes(volumes, pair) + kept)[i] == RewrittenVolumes(volumes, pair)[i];
    }
  }

  ghost predicate AppKept(app: Pod, p: Pod, pairs: seq<Pair>) {
    && KeepsVolumes(app, p.volumes, pairs)
    && p.labels == if pairs == [] then app.labels else app.labels[INJECT_DONE := "true"]
  }

  lemma KeepsMutated(app: Pod, p: Pod, pairs: seq<Pair>, pair: Pair, kind: Kind)
    requires Accepted(pair) && AppKept(app, p, pairs)
    ensures AppKept(app, Mutated(p, pair, kind, |pairs|), pairs + [pair])
  {
    var kept := StepShape(p, pair, kind, |pairs|);
    KeepsStep(app, p.volumes, pairs, pair, kept);
    assert p.labels[INJECT_DONE := "true"] == app.labels[INJECT_DONE := "true"];
  }

  ghost predicate KeepsVolumes(app: Pod, volumes: seq<Volume>, pairs: seq<Pair>) {
    && |volumes| >= |app.volumes|
    && forall i :: 0 <= i < |app.volumes| ==>
         volumes[i] == Volume(app.volumes[i].name, RewrittenBy(app.volumes[i].source, pairs))
  }

  lemma SnocPairs(pairs: seq<Pair>)
    requires pairs != []
    ensures pairs == pairs[..|pairs| - 1] + [pairs[|pairs| - 1]]
  {
  }

  lemma KeptByMore(app: Pod, pairs: seq<Pair>, pair: Pair, kind: Kind)
    requires AllAccepted(pairs) && Accepted(pair) && AppKept(app, MutatedBy(app, pairs, kind), pairs)
    ensures AllAccepted(pairs + [pair]) && AppKept(app, MutatedBy(app, pairs + [pair], kind), pairs + [pair])
  {
    MutatedByMore(app, pairs, pair, kind);
    KeepsMutated(app, MutatedBy(app, pairs, kind), pairs, pair, kind);
  }

  /** The app's volumes keep their names and places; a volume of a claim shows the mount of the first pair with
      that claim (see `RewrittenIs`). Labels other than the webhook's stay. */
  lemma {:induction false} AppKeepsItsVolumes(app: Pod, pairs: seq<Pair>, kind: Kind)
    requires AllAccepted(pairs)
    ensures AppKept(app, MutatedBy(app, pairs, kind), pairs)
  {
    if pairs != [] {
      var front, last := pairs[..|pairs| - 1], pairs[|pairs| - 1];
      SnocPairs(pairs);
      AppKeepsItsVolumes(app, front, kind);
      KeptByMore(app, front, last, kind);
    }
  }

  predicate FirstWith(pairs: seq<Pair>, claim: string, i: nat) {
    i < |pairs| && pairs[i].claim == claim && forall j :: 0 <= j < i ==> pairs[j].claim != claim
  }

  lemma {:induction false} NotRewritten(source: Source, pairs: seq<Pair>)
    requires forall p :: p in pairs ==> source != Claim(p.claim)
    ensures RewrittenBy(source, pairs) == source
  {
    if pairs != [] {
      NotRewritten(source, pairs[..|pairs| - 1]);
    }
  }

  lemma {:induction false} FirstRewrites(claim: string, pairs: seq<Pair>, i: nat)
    requires FirstWith(pairs, claim, i)
    ensures RewrittenBy(Claim(claim), pairs) == HostPath(GoPath.PathJoin(MOUNT_POINT_PATH, pairs[i].directory))
  {
    var front := pairs[..|pairs| - 1];
    if i < |front| {
      FirstRewrites(claim, front, i);
    } else {
      NotRewritten(Claim(claim), front);
    }
  }

  /** The first pair of a claim decides; what is no claim of any pair stays. */
  lemma RewrittenIs(source: Source, pairs: seq<Pair>)
    ensures (forall p :: p in pairs ==> source != Claim(p.claim)) ==> RewrittenBy(source, pairs) == source
    ensures forall i: nat :: source.Claim? && FirstWith(pairs, source.claimName, i) ==>
      RewrittenBy(source, pairs) == HostPath(GoPath.PathJoin(MOUNT_POINT_PATH, pairs[i].directory))
  {
    if forall p :: p in pairs ==> source != Claim(p.claim) {
      NotRewritten(source, pairs);
    }
    forall i: nat | source.Claim? && FirstWith(pairs, source.claimName, i)
      ensures RewrittenBy(source, pairs) == HostPath(GoPath.PathJoin(MOUNT_POINT_PATH, pairs[i].directory))
    {
      FirstRewrites(source.claimName, pairs, i);
    }
  }

  lemma MutatedByMore(app: Pod, pairs: seq<Pair>, pair: Pair, kind: Kind)
    requires AllAccepted(pairs) && Accepted(pair)
    ensures MutatedBy(app, pairs + [pair], kind) == Mutated(MutatedBy(app, pairs, kind), pair, kind, |pairs|)
  {
    assert (pairs + [pair])[..|pairs|] == pairs;
  }

  // ---------- why the names are reserved ----------

  /** An app may not use the reserved names: here its two containers are called like sidecars, and the one
      injected for a first pair gets the name of the first of them. */
  lemma ReservedNamesCollide(pair: Pair, kind: Kind)
    requires Accepted(pair)
    ensures var app := Pod([PodContainer("jfs-mount-0", []), PodContainer("jfs-mount", [])], [], map[]);
      WellFormedPod(app) && !WellFormedPod(MutatedBy(app, [pair], kind))
  {
    var a, b := PodContainer("jfs-mount-0", []), PodContainer("jfs-mount", []);
    var app := Pod([a, b], [], map[]);
    assert [a, b][..1] == [a] && [a][..0] == [];
    assert ContainerName([a], 0) == "jfs-mount";
    assert Itoa(0) == "0";
    assert ContainerName([a, b], 0) == "jfs-mount-0";
    assert [pair][..0] == [];
    var p := Mutated(app, pair, kind, 0);
    assert MutatedBy(app, [pair], kind) == p;
    assert p.containers[0].name == p.containers[1].name;
    assert ContainerNames(p.containers)[0] == ContainerNames(p.containers)[1];
  }
}
