/** The webhook that puts a mount container into an app pod for every JuiceFS volume the pod uses. */
module Sidecar {
  import opened PodVolumes
  import opened Strings
  import opened Wrappers
  import GoPath

  const MOUNT_CONTAINER := "jfs-mount"
  const INJECT_DONE := "done.sidecar.juicefs.com/inject"
  const GIB := 1024 * 1024 * 1024

  datatype PodContainer = PodContainer(name: string, mounts: seq<VolumeMount>)

  /** What the webhook looks at and changes in a pod. */
  datatype Pod = Pod(containers: seq<PodContainer>, volumes: seq<Volume>, labels: map<string, string>)

  /** A claim of the pod with its volume: the setting read from the volume and its secret (if they can be
      read), the requested bytes, and the random directory name to mount on. */
  datatype Pair = Pair(claim: string, setting: Option<VolumeSetting>, capacity: int, directory: string)

  predicate Accepted(pair: Pair) {
    pair.setting.Some? && pair.capacity >= GIB
  }

  // ---------- names ----------

  /** The name the mount container ends up with, next to these containers. */
  function ContainerName(containers: seq<PodContainer>, index: nat): (r: string) {
    if containers == [] then MOUNT_CONTAINER
    else
      var name := ContainerName(containers[..|containers| - 1], index);
      if containers[|containers| - 1].name == name then name + "-" + Itoa(index) else name
  }

  predicate Shared(name: string) {
    name == UPDATE_DB || name == JFS_DIR
  }

  predicate Names(volumes: seq<Volume>, name: string) {
    exists i :: 0 <= i < |volumes| && volumes[i].name == name
  }

  predicate Clashes(name: string, taken: seq<Volume>) {
    !Shared(name) && Names(taken, name)
  }

  function NewName(name: string, taken: seq<Volume>, container: string): (r: string) {
    if Clashes(name, taken) then container + "-" + name else name
  }

  function RenamedVolumes(volumes: seq<Volume>, taken: seq<Volume>, container: string): (r: seq<Volume>)
    ensures |r| == |volumes|
    ensures forall i :: 0 <= i < |r| ==> r[i] == volumes[i].(name := NewName(volumes[i].name, taken, container))
  {
    seq(|volumes|, i requires 0 <= i < |volumes| => volumes[i].(name := NewName(volumes[i].name, taken, container)))
  }

  /** The first mount of a volume; position 0 when it has none. */
  function MountIndex(mounts: seq<VolumeMount>, name: string, j: nat): (i: nat)
    requires j <= |mounts|
    ensures i < |mounts| || i == 0
    ensures forall k ::
      j <= k < |mounts| && mounts[k].name == name && (forall l :: j <= l < k ==> mounts[l].name != name) ==> i == k
    decreases |mounts| - j
  {
    if j == |mounts| then 0 else if mounts[j].name == name then j else MountIndex(mounts, name, j + 1)
  }

  function RenamedMounts(volumes: seq<Volume>, taken: seq<Volume>, container: string, mounts: seq<VolumeMount>)
    : (r: seq<VolumeMount>)
    requires mounts != []
    ensures |r| == |mounts|
  {
    if volumes == [] then mounts
    else
      var m := RenamedMounts(volumes[..|volumes| - 1], taken, container, mounts);
      var name := volumes[|volumes| - 1].name;
      if Clashes(name, taken) then
        var i := MountIndex(m, name, 0);
        m[i := m[i].(name := container + "-" + name)]
      else m
  }

  // ---------- volumes ----------

  predicate Skipped(v: Volume, taken: seq<Volume>) {
    Shared(v.name) && Names(taken, v.name)
  }

  function Kept(volumes: seq<Volume>, taken: seq<Volume>): (r: seq<Volume>) {
    if volumes == [] then []
    else
      var kept := Kept(volumes[..|volumes| - 1], taken);
      if Skipped(volumes[|volumes| - 1], taken) then kept else kept + [volumes[|volumes| - 1]]
  }

  /** A volume of the claim becomes the directory of the host that the mount container mounts on. */
  function Rewritten(source: Source, pair: Pair): (r: Source) {
    if source == Claim(pair.claim) then HostPath(GoPath.PathJoin(MOUNT_POINT_PATH, pair.directory)) else source
  }

  function RewrittenVolumes(volumes: seq<Volume>, pair: Pair): (r: seq<Volume>)
    ensures |r| == |volumes|
    ensures forall i :: 0 <= i < |r| ==> r[i] == volumes[i].(source := Rewritten(volumes[i].source, pair))
  {
    seq(|volumes|, i requires 0 <= i < |volumes| => volumes[i].(source := Rewritten(volumes[i].source, pair)))
  }

  // ---------- pods ----------

  lemma SidecarMounts(s: VolumeSetting, kind: Kind)
    ensures MountsOf(SidecarSlots(s, kind)) != []
  {
    assert JfsDirSlots()[0] in PodSlots(s) && JfsDirSlots()[0] in ServerlessSlots(s);
    assert JfsDirSlots()[0] in SidecarSlots(s, kind);
  }

  function Mutated(pod: Pod, pair: Pair, kind: Kind, index: nat): (r: Pod)
    requires Accepted(pair)
  {
    var slots := SidecarSlots(pair.setting.value, kind);
    var name := ContainerName(pod.containers, index);
    SidecarMounts(pair.setting.value, kind);
    var mounts := RenamedMounts(VolumesOf(slots), pod.volumes, name, MountsOf(slots));
    var volumes := RenamedVolumes(VolumesOf(slots), pod.volumes, name);
    Pod([PodContainer(name, mounts)] + pod.containers,
        RewrittenVolumes(pod.volumes, pair) + Kept(volumes, pod.volumes),
        pod.labels[INJECT_DONE := "true"])
  }

  /** A sidecar for each of the pairs, in order. */
  function MutatedBy(pod: Pod, pairs: seq<Pair>, kind: Kind): (r: Pod)
    requires forall p :: p in pairs ==> Accepted(p)
  {
    if pairs == [] then pod
    else Mutated(MutatedBy(pod, pairs[..|pairs| - 1], kind), pairs[|pairs| - 1], kind, |pairs| - 1)
  }

  lemma MutatedMore(pod: Pod, pairs: seq<Pair>, kind: Kind, i: nat)
    requires i < |pairs| && Accepted(pairs[i]) && forall p :: p in pairs[..i] ==> Accepted(p)
    ensures forall p :: p in pairs[..i + 1] ==> Accepted(p)
    ensures MutatedBy(pod, pairs[..i + 1], kind) == Mutated(MutatedBy(pod, pairs[..i], kind), pairs[i], kind, i)
  {
    assert pairs[..i + 1][..i] == pairs[..i];
    assert pairs[..i + 1] == pairs[..i] + [pairs[i]];
  }

  class PodSpec {
    var containers: seq<PodContainer>
    var volumes: seq<Volume>
    var labels: map<string, string>

    constructor (pod: Pod)
      ensures View() == pod
    {
      containers, volumes, labels := pod.containers, pod.volumes, pod.labels;
    }

    function View(): (r: Pod)
      reads this
    {
      Pod(containers, volumes, labels)
    }
  }

  /** Gives the mount container and its volumes names that the pod does not use yet. */
  method Deduplicate(pod: PodSpec, mountPod: PodSpec, index: nat)
    requires pod != mountPod
    requires |mountPod.containers| == 1 && mountPod.containers[0].name == MOUNT_CONTAINER
    requires mountPod.containers[0].mounts != []
    modifies mountPod
    ensures var name := ContainerName(pod.containers, index);
      && mountPod.volumes == RenamedVolumes(old(mountPod.volumes), pod.volumes, name)
      && mountPod.containers == [PodContainer(name,
           RenamedMounts(old(mountPod.volumes), pod.volumes, name, old(mountPod.containers[0].mounts)))]
  {
    for i := 0 to |pod.containers|
      invariant mountPod.containers ==
        [PodContainer(ContainerName(pod.containers[..i], index), old(mountPod.containers[0].mounts))]
      invariant mountPod.volumes == old(mountPod.volumes)
    {
      assert pod.containers[..i + 1][..i] == pod.containers[..i];
      var c := pod.containers[i];
      if c.name == mountPod.containers[0].name {
        mountPod.containers := [mountPod.containers[0].(name := c.name + "-" + Itoa(index))];
      }
    }
    assert pod.containers[..|pod.containers|] == pod.containers;
    ghost var volumes, mounts := mountPod.volumes, mountPod.containers[0].mounts;
    var container := mountPod.containers[0].name;
    for i := 0 to |mountPod.volumes|
      invariant |mountPod.volumes| == |volumes|
      invariant forall k :: 0 <= k < i ==>
        mountPod.volumes[k] == volumes[k].(name := NewName(volumes[k].name, pod.volumes, container))
      invariant forall k :: i <= k < |volumes| ==> mountPod.volumes[k] == volumes[k]
      invariant mountPod.containers ==
        [PodContainer(container, RenamedMounts(volumes[..i], pod.volumes, container, mounts))]
    {
      assert volumes[..i + 1][..i] == volumes[..i];
      RenameOne(pod, mountPod, i);
    }
    assert volumes[..|volumes|] == volumes;
  }

  /** Renames one volume of the mount pod and its mount when the pod has a volume of that name. */
  method RenameOne(pod: PodSpec, mountPod: PodSpec, i: nat)
    requires pod != mountPod && i < |mountPod.volumes|
    requires |mountPod.containers| == 1 && mountPod.containers[0].mounts != []
    modifies mountPod
    ensures var container, v := old(mountPod.containers[0]), old(mountPod.volumes[i]);
      var j := MountIndex(container.mounts, v.name, 0);
      && mountPod.volumes == old(mountPod.volumes)[i := v.(name := NewName(v.name, pod.volumes, container.name))]
      && mountPod.containers == [
           if Clashes(v.name, pod.volumes) then
             container.(mounts := container.mounts[j := container.mounts[j].(name := container.name + "-" + v.name)])
           else container]
  {
    var container, mv := mountPod.containers[0], mountPod.volumes[i];
    if mv.name == UPDATE_DB || mv.name == JFS_DIR {
      return;
    }
    var mountIndex := 0;
    for j := 0 to |container.mounts|
      invariant mountIndex == 0
      invariant MountIndex(container.mounts, mv.name, 0) == MountIndex(container.mounts, mv.name, j)
    {
      if container.mounts[j].name == mv.name {
        mountIndex := j;
        break;
      }
    }
    assert mountIndex == MountIndex(container.mounts, mv.name, 0);
    var renamed := container.name + "-" + mv.name;
    for k := 0 to |pod.volumes|
      invariant mountPod.volumes ==
        old(mountPod.volumes)[i := if Names(pod.volumes[..k], mv.name) then mv.(name := renamed) else mv]
      invariant mountPod.containers == [
        if Names(pod.volumes[..k], mv.name) then
          container.(mounts := container.mounts[mountIndex := container.mounts[mountIndex].(name := renamed)])
        else container]
    {
      NamesMore(pod.volumes, k, mv.name);
      if pod.volumes[k].name == mv.name {
        mountPod.volumes := mountPod.volumes[i := mountPod.volumes[i].(name := renamed)];
        var mounts := mountPod.containers[0].mounts;
        assert mounts[mountIndex := mounts[mountIndex].(name := renamed)] ==
          container.mounts[mountIndex := container.mounts[mountIndex].(name := renamed)];
        mountPod.containers := [container.(mounts := mounts[mountIndex := mounts[mountIndex].(name := renamed)])];
      }
    }
    assert pod.volumes[..|pod.volumes|] == pod.volumes;
  }

  lemma NamesMore(volumes: seq<Volume>, k: nat, name: string)
    requires k < |volumes|
    ensures Names(volumes[..k + 1], name) <==> Names(volumes[..k], name) || volumes[k].name == name
  {
    if Names(volumes[..k], name) {
      var i :| 0 <= i < k && volumes[..k][i].name == name;
      assert volumes[..k + 1][i].name == name;
    }
    if volumes[k].name == name {
      assert volumes[..k + 1][k].name == name;
    }
  }

  method InjectVolume(pod: PodSpec, volumes: seq<Volume>, pair: Pair)
    modifies pod
    ensures pod.volumes == RewrittenVolumes(old(pod.volumes), pair) + Kept(volumes, old(pod.volumes))
    ensures pod.containers == old(pod.containers) && pod.labels == old(pod.labels)
  {
    var mounted: seq<Volume> := [];
    for i := 0 to |volumes|
      invariant mounted == Kept(volumes[..i], pod.volumes)
    {
      assert volumes[..i + 1][..i] == volumes[..i];
      var v := volumes[i];
      if v.name == UPDATE_DB || v.name == JFS_DIR {
        if Names(pod.volumes, v.name) {
          continue;
        }
      }
      mounted := mounted + [v];
    }
    assert volumes[..|volumes|] == volumes;
    for i := 0 to |pod.volumes|
      invariant |pod.volumes| == |old(pod.volumes)|
      invariant forall k :: 0 <= k < i ==> pod.volumes[k] == RewrittenVolumes(old(pod.volumes), pair)[k]
      invariant forall k :: i <= k < |pod.volumes| ==> pod.volumes[k] == old(pod.volumes)[k]
      invariant pod.containers == old(pod.containers) && pod.labels == old(pod.labels)
    {
      var volume := pod.volumes[i];
      if volume.source == Claim(pair.claim) {
        volume := volume.(source := HostPath(GoPath.PathJoin(MOUNT_POINT_PATH, pair.directory)));
        pod.volumes := pod.volumes[i := volume];
      }
    }
    assert pod.volumes == RewrittenVolumes(old(pod.volumes), pair);
    pod.volumes := pod.volumes + mounted;
  }

  /** One step: a copy of the pod with a sidecar for the pair. */
  method MutateOne(pod: PodSpec, pair: Pair, kind: Kind, index: nat) returns (out: Option<PodSpec>)
    ensures out.Some? <==> Accepted(pair)
    ensures out.Some? ==> fresh(out.value) && out.value.View() == Mutated(pod.View(), pair, kind, index)
  {
    if pair.setting.None? {
      return None;
    }
    var copy := new PodSpec(pod.View());
    var cap := pair.capacity / 1024 / 1024 / 1024;
    if cap <= 0 {
      return None;
    }
    var volumes, mounts := NewMountSidecar(pair.setting.value, kind);
    SidecarMounts(pair.setting.value, kind);
    var mountPod := new PodSpec(Pod([PodContainer(MOUNT_CONTAINER, mounts)], volumes, map[]));
    Deduplicate(pod, mountPod, index);
    InjectVolume(copy, mountPod.volumes, pair);
    copy.labels := copy.labels[INJECT_DONE := "true"];
    copy.containers := [mountPod.containers[0]] + copy.containers;
    return Some(copy);
  }

  /** All steps; the pod itself stays as it is, and one pair that is refused refuses all. */
  method Mutate(pod: PodSpec, pairs: seq<Pair>, kind: Kind) returns (out: Option<PodSpec>)
    ensures out.Some? <==> forall p :: p in pairs ==> Accepted(p)
    ensures out.Some? ==> fresh(out.value) && out.value.View() == MutatedBy(pod.View(), pairs, kind)
  {
    var current := new PodSpec(pod.View());
    for i := 0 to |pairs|
      invariant fresh(current)
      invariant forall p :: p in pairs[..i] ==> Accepted(p)
      invariant current.View() == MutatedBy(pod.View(), pairs[..i], kind)
    {
      var next := MutateOne(current, pairs[i], kind, i);
      if next.None? {
        return None;
      }
      MutatedMore(pod.View(), pairs, kind, i);
      current := next.value;
    }
    assert pairs[..|pairs|] == pairs;
    return Some(current);
  }
}
