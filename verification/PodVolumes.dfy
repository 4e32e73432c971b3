/** The volumes of a mount pod and of a sidecar, and where its container mounts them. */
module PodVolumes {
  import opened Seqs
  import opened Strings
  import opened Wrappers
  import MountCommand

  /** A key of a secret and the file it becomes; without items, every key becomes a file of its own name. */
  datatype Item = Item(key: string, path: string)

  datatype Source =
    | Secret(secretName: string, items: seq<Item>)
    | HostPath(path: string)
    | Claim(claimName: string)
    | EmptyDir(medium: string)
    | Csi(driver: string)

  datatype Volume = Volume(name: string, source: Source)
  datatype VolumeMount = VolumeMount(name: string, path: string)

  datatype CachePvc = CachePvc(claimName: string, path: string)
  datatype CacheEmptyDir = CacheEmptyDir(medium: string, path: string)
  datatype CacheInline = CacheInline(driver: string, path: string)

  /** The part of the mount setting that the volumes depend on. */
  datatype VolumeSetting = VolumeSetting(
    name: string,
    secretName: string,
    encryptRsaKey: string,
    initConfig: string,
    configs: seq<(string, string)>,
    cacheDirs: seq<string>,
    cachePvcs: seq<CachePvc>,
    cacheEmptyDir: Option<CacheEmptyDir>,
    cacheInlines: seq<CacheInline>,
    hostPaths: seq<string>,
    immutable: bool)

  datatype Kind = Container | Serverless

  const JFS_DIR := "jfs-dir"
  const UPDATE_DB := "updatedb"
  const UPDATE_DB_FILE := "/etc/updatedb.conf"
  const MOUNT_POINT_PATH := "/var/lib/juicefs/volume"
  const CHECK_MOUNT_SCRIPT := "/check_mount.sh"

  // ---------- what is built ----------

  /** The role of a volume, which gives its name. */
  datatype Role =
    | RsaKey
    | InitConfig
    | Config(i: nat)
    | JfsDir
    | UpdateDb
    | CacheDir(i: nat)
    | CacheClaim(i: nat)
    | CacheEmpty
    | CacheInlineVolume(i: nat)
    | HostDir(i: nat)
    | CheckMount

  function RoleName(role: Role): (r: string) {
    match role
    case RsaKey => "rsa-key"
    case InitConfig => "init-config"
    case Config(i) => "config-" + Itoa(i)
    case JfsDir => JFS_DIR
    case UpdateDb => UPDATE_DB
    case CacheDir(i) => "cachedir-" + Itoa(i)
    case CacheClaim(i) => "cachedir-pvc-" + Itoa(i)
    case CacheEmpty => "cachedir-empty-dir"
    case CacheInlineVolume(i) => "cachedir-inline-volume-" + Itoa(i)
    case HostDir(i) => "hostpath-" + Itoa(i)
    case CheckMount => "jfs-check-mount"
  }

  /** One volume together with its one mount. */
  datatype Slot = Slot(role: Role, source: Source, path: string)

  function VolumesOf(slots: seq<Slot>): (r: seq<Volume>)
    ensures |r| == |slots|
    ensures forall i :: 0 <= i < |r| ==> r[i] == Volume(RoleName(slots[i].role), slots[i].source)
  {
    seq(|slots|, i requires 0 <= i < |slots| => Volume(RoleName(slots[i].role), slots[i].source))
  }

  function MountsOf(slots: seq<Slot>): (r: seq<VolumeMount>)
    ensures |r| == |slots|
    ensures forall i :: 0 <= i < |r| ==> r[i] == VolumeMount(RoleName(slots[i].role), slots[i].path)
  {
    seq(|slots|, i requires 0 <= i < |slots| => VolumeMount(RoleName(slots[i].role), slots[i].path))
  }

  function RsaSource(s: VolumeSetting): (r: Source) {
    Secret(s.secretName, [Item("encrypt_rsa_key", "rsa-key.pem")])
  }

  function InitSource(s: VolumeSetting): (r: Source) {
    Secret(s.secretName, [Item("initconfig", s.name + ".conf")])
  }

  function RsaSlots(s: VolumeSetting): (r: seq<Slot>) {
    if s.encryptRsaKey != "" then [Slot(RsaKey, RsaSource(s), "/root/.rsa")] else []
  }

  function InitSlots(s: VolumeSetting): (r: seq<Slot>) {
    if s.initConfig != "" then [Slot(InitConfig, InitSource(s), "/etc/juicefs")] else []
  }

  function ConfigSlots(s: VolumeSetting): (r: seq<Slot>) {
    seq(|s.configs|, i requires 0 <= i < |s.configs| => Slot(Config(i + 1), Secret(s.configs[i].0, []), s.configs[i].1))
  }

  function JfsDirSlots(): (r: seq<Slot>) {
    [Slot(JfsDir, HostPath(MOUNT_POINT_PATH), MountCommand.POD_MOUNT_BASE)]
  }

  function UpdateDbSlots(s: VolumeSetting): (r: seq<Slot>) {
    if !s.immutable then [Slot(UpdateDb, HostPath(UPDATE_DB_FILE), UPDATE_DB_FILE)] else []
  }

  function CheckMountSlots(s: VolumeSetting): (r: seq<Slot>) {
    [Slot(CheckMount, Secret(s.secretName, []), CHECK_MOUNT_SCRIPT)]
  }

  function CacheDirSlots(s: VolumeSetting): (r: seq<Slot>) {
    seq(|s.cacheDirs|, i requires 0 <= i < |s.cacheDirs| => Slot(CacheDir(i), HostPath(s.cacheDirs[i]), s.cacheDirs[i]))
  }

  function CacheClaimSlots(s: VolumeSetting): (r: seq<Slot>) {
    seq(|s.cachePvcs|, i requires 0 <= i < |s.cachePvcs| =>
      Slot(CacheClaim(i), Claim(s.cachePvcs[i].claimName), s.cachePvcs[i].path))
  }

  function CacheEmptySlots(s: VolumeSetting): (r: seq<Slot>) {
    match s.cacheEmptyDir case None => [] case Some(d) => [Slot(CacheEmpty, EmptyDir(d.medium), d.path)]
  }

  function CacheInlineSlots(s: VolumeSetting): (r: seq<Slot>) {
    seq(|s.cacheInlines|, i requires 0 <= i < |s.cacheInlines| =>
      Slot(CacheInlineVolume(i), Csi(s.cacheInlines[i].driver), s.cacheInlines[i].path))
  }

  function HostSlots(s: VolumeSetting): (r: seq<Slot>) {
    seq(|s.hostPaths|, i requires 0 <= i < |s.hostPaths| => Slot(HostDir(i), HostPath(s.hostPaths[i]), s.hostPaths[i]))
  }

  function JuiceSlots(s: VolumeSetting): (r: seq<Slot>) {
    RsaSlots(s) + InitSlots(s) + ConfigSlots(s)
  }

  /** The cache volumes that serverless clusters support. */
  function PortableCacheSlots(s: VolumeSetting): (r: seq<Slot>) {
    CacheClaimSlots(s) + CacheEmptySlots(s) + CacheInlineSlots(s)
  }

  function CacheSlots(s: VolumeSetting): (r: seq<Slot>) {
    CacheDirSlots(s) + PortableCacheSlots(s)
  }

  function PodSlots(s: VolumeSetting): (r: seq<Slot>) {
    JfsDirSlots() + UpdateDbSlots(s)
  }

  function ServerlessSlots(s: VolumeSetting): (r: seq<Slot>) {
    JfsDirSlots() + CheckMountSlots(s)
  }

  function MountPodSlots(s: VolumeSetting): (r: seq<Slot>) {
    JuiceSlots(s) + PodSlots(s) + CacheSlots(s) + HostSlots(s)
  }

  function SidecarSlots(s: VolumeSetting, kind: Kind): (r: seq<Slot>) {
    match kind
    case Container => MountPodSlots(s) + CheckMountSlots(s)
    case Serverless => JuiceSlots(s) + ServerlessSlots(s) + PortableCacheSlots(s)
  }

  /** These volumes and mounts were built for these slots. */
  predicate Built(volumes: seq<Volume>, mounts: seq<VolumeMount>, slots: seq<Slot>) {
    volumes == VolumesOf(slots) && mounts == MountsOf(slots)
  }

  lemma BuiltConcat(
    v: seq<Volume>, m: seq<VolumeMount>, a: seq<Slot>, v': seq<Volume>, m': seq<VolumeMount>, b: seq<Slot>)
    requires Built(v, m, a) && Built(v', m', b)
    ensures Built(v + v', m + m', a + b)
  {
  }

  lemma BuiltMore(v: seq<Volume>, m: seq<VolumeMount>, a: seq<Slot>, slots: seq<Slot>, i: nat)
    requires i < |slots| && Built(v, m, a + slots[..i])
    ensures var name := RoleName(slots[i].role);
      Built(v + [Volume(name, slots[i].source)], m + [VolumeMount(name, slots[i].path)], a + slots[..i + 1])
  {
    assert a + slots[..i + 1] == (a + slots[..i]) + [slots[i]];
    BuiltConcat(v, m, a + slots[..i], VolumesOf([slots[i]]), MountsOf([slots[i]]), [slots[i]]);
    assert VolumesOf([slots[i]]) == [Volume(RoleName(slots[i].role), slots[i].source)];
    assert MountsOf([slots[i]]) == [VolumeMount(RoleName(slots[i].role), slots[i].path)];
  }

  lemma BuiltAll(v: seq<Volume>, m: seq<VolumeMount>, a: seq<Slot>, slots: seq<Slot>)
    requires Built(v, m, a + slots[..|slots|])
    ensures Built(v, m, a + slots)
  {
    assert slots[..|slots|] == slots;
  }

  // ---------- the builders ----------

  method GenJuiceVolumes(s: VolumeSetting) returns (volumes: seq<Volume>, mounts: seq<VolumeMount>)
    ensures Built(volumes, mounts, JuiceSlots(s))
  {
    volumes, mounts := [], [];
    if s.encryptRsaKey != "" {
      volumes := volumes + [Volume("rsa-key", Secret(s.secretName, [Item("encrypt_rsa_key", "rsa-key.pem")]))];
      mounts := mounts + [VolumeMount("rsa-key", "/root/.rsa")];
    }
    assert Built(volumes, mounts, RsaSlots(s));
    if s.initConfig != "" {
      BuiltConcat(volumes, mounts, RsaSlots(s), VolumesOf(InitSlots(s)), MountsOf(InitSlots(s)), InitSlots(s));
      volumes := volumes + [Volume("init-config", Secret(s.secretName, [Item("initconfig", s.name + ".conf")]))];
      mounts := mounts + [VolumeMount("init-config", "/etc/juicefs")];
    }
    ghost var slots := RsaSlots(s) + InitSlots(s);
    assert Built(volumes, mounts, slots + ConfigSlots(s)[..0]);
    for k := 0 to |s.configs|
      invariant Built(volumes, mounts, slots + ConfigSlots(s)[..k])
    {
      BuiltMore(volumes, mounts, slots, ConfigSlots(s), k);
      mounts := mounts + [VolumeMount("config-" + Itoa(k + 1), s.configs[k].1)];
      volumes := volumes + [Volume("config-" + Itoa(k + 1), Secret(s.configs[k].0, []))];
    }
    BuiltAll(volumes, mounts, slots, ConfigSlots(s));
  }

  method GenPodVolumes(s: VolumeSetting) returns (volumes: seq<Volume>, mounts: seq<VolumeMount>)
    ensures Built(volumes, mounts, PodSlots(s))
  {
    volumes := [Volume(JFS_DIR, HostPath(MOUNT_POINT_PATH))];
    mounts := [VolumeMount(JFS_DIR, MountCommand.POD_MOUNT_BASE)];
    if !s.immutable {
      volumes := volumes + [Volume(UPDATE_DB, HostPath(UPDATE_DB_FILE))];
      mounts := mounts + [VolumeMount(UPDATE_DB, UPDATE_DB_FILE)];
    }
  }

  method GenServerlessVolumes(s: VolumeSetting) returns (volumes: seq<Volume>, mounts: seq<VolumeMount>)
    ensures Built(volumes, mounts, ServerlessSlots(s))
  {
    volumes := [Volume(JFS_DIR, HostPath(MOUNT_POINT_PATH)), Volume("jfs-check-mount", Secret(s.secretName, []))];
    mounts := [VolumeMount(JFS_DIR, MountCommand.POD_MOUNT_BASE), VolumeMount("jfs-check-mount", CHECK_MOUNT_SCRIPT)];
  }

  /** The cache volumes apart from directories of the host. */
  method GenPortableCacheVolumes(s: VolumeSetting) returns (volumes: seq<Volume>, mounts: seq<VolumeMount>)
    ensures Built(volumes, mounts, PortableCacheSlots(s))
  {
    volumes, mounts := [], [];
    for i := 0 to |s.cachePvcs|
      invariant Built(volumes, mounts, [] + CacheClaimSlots(s)[..i])
    {
      BuiltMore(volumes, mounts, [], CacheClaimSlots(s), i);
      var name := "cachedir-pvc-" + Itoa(i);
      volumes := volumes + [Volume(name, Claim(s.cachePvcs[i].claimName))];
      mounts := mounts + [VolumeMount(name, s.cachePvcs[i].path)];
    }
    BuiltAll(volumes, mounts, [], CacheClaimSlots(s));
    assert [] + CacheClaimSlots(s) == CacheClaimSlots(s);
    ghost var slots := CacheClaimSlots(s) + CacheEmptySlots(s);
    if s.cacheEmptyDir.Some? {
      ghost var one := CacheEmptySlots(s);
      BuiltConcat(volumes, mounts, CacheClaimSlots(s), VolumesOf(one), MountsOf(one), one);
      var name := "cachedir-empty-dir";
      volumes := volumes + [Volume(name, EmptyDir(s.cacheEmptyDir.value.medium))];
      mounts := mounts + [VolumeMount(name, s.cacheEmptyDir.value.path)];
    }
    assert Built(volumes, mounts, slots + CacheInlineSlots(s)[..0]);
    for i := 0 to |s.cacheInlines|
      invariant Built(volumes, mounts, slots + CacheInlineSlots(s)[..i])
    {
      BuiltMore(volumes, mounts, slots, CacheInlineSlots(s), i);
      var name := "cachedir-inline-volume-" + Itoa(i);
      volumes := volumes + [Volume(name, Csi(s.cacheInlines[i].driver))];
      mounts := mounts + [VolumeMount(name, s.cacheInlines[i].path)];
    }
    BuiltAll(volumes, mounts, slots, CacheInlineSlots(s));
  }

  method GenCacheDirVolumes(s: VolumeSetting) returns (volumes: seq<Volume>, mounts: seq<VolumeMount>)
    ensures Built(volumes, mounts, CacheSlots(s))
  {
    volumes, mounts := [], [];
    for i := 0 to |s.cacheDirs|
      invariant Built(volumes, mounts, [] + CacheDirSlots(s)[..i])
    {
      BuiltMore(volumes, mounts, [], CacheDirSlots(s), i);
      var name := "cachedir-" + Itoa(i);
      volumes := volumes + [Volume(name, HostPath(s.cacheDirs[i]))];
      mounts := mounts + [VolumeMount(name, s.cacheDirs[i])];
    }
    BuiltAll(volumes, mounts, [], CacheDirSlots(s));
    assert [] + CacheDirSlots(s) == CacheDirSlots(s);
    var v, m := GenPortableCacheVolumes(s);
    BuiltConcat(volumes, mounts, CacheDirSlots(s), v, m, PortableCacheSlots(s));
    volumes, mounts := volumes + v, mounts + m;
  }

  method GenHostPathVolumes(s: VolumeSetting) returns (volumes: seq<Volume>, mounts: seq<VolumeMount>)
    ensures Built(volumes, mounts, HostSlots(s))
  {
    volumes, mounts := [], [];
    for i := 0 to |s.hostPaths|
      invariant Built(volumes, mounts, [] + HostSlots(s)[..i])
    {
      BuiltMore(volumes, mounts, [], HostSlots(s), i);
      var name := "hostpath-" + Itoa(i);
      volumes := volumes + [Volume(name, HostPath(s.hostPaths[i]))];
      mounts := mounts + [VolumeMount(name, s.hostPaths[i])];
    }
    BuiltAll(volumes, mounts, [], HostSlots(s));
    assert [] + HostSlots(s) == HostSlots(s);
  }

  method NewMountPod(s: VolumeSetting) returns (volumes: seq<Volume>, mounts: seq<VolumeMount>)
    ensures Built(volumes, mounts, MountPodSlots(s))
  {
    volumes, mounts := GenJuiceVolumes(s);
    var podVolumes, podMounts := GenPodVolumes(s);
    BuiltConcat(volumes, mounts, JuiceSlots(s), podVolumes, podMounts, PodSlots(s));
    volumes, mounts := volumes + podVolumes, mounts + podMounts;
    var cacheVolumes, cacheMounts := GenCacheDirVolumes(s);
    BuiltConcat(volumes, mounts, JuiceSlots(s) + PodSlots(s), cacheVolumes, cacheMounts, CacheSlots(s));
    volumes, mounts := volumes + cacheVolumes, mounts + cacheMounts;
    var hostVolumes, hostMounts := GenHostPathVolumes(s);
    BuiltConcat(volumes, mounts, JuiceSlots(s) + PodSlots(s) + CacheSlots(s), hostVolumes, hostMounts, HostSlots(s));
    volumes, mounts := volumes + hostVolumes, mounts + hostMounts;
  }

  method NewMountSidecar(s: VolumeSetting, kind: Kind) returns (volumes: seq<Volume>, mounts: seq<VolumeMount>)
    ensures Built(volumes, mounts, SidecarSlots(s, kind))
  {
    match kind {
      case Container =>
        volumes, mounts := NewMountPod(s);
        var v := [Volume("jfs-check-mount", Secret(s.secretName, []))];
        var m := [VolumeMount("jfs-check-mount", CHECK_MOUNT_SCRIPT)];
        BuiltConcat(volumes, mounts, MountPodSlots(s), v, m, CheckMountSlots(s));
        volumes, mounts := volumes + v, mounts + m;
      case Serverless =>
        volumes, mounts := GenJuiceVolumes(s);
        var podVolumes, podMounts := GenServerlessVolumes(s);
        BuiltConcat(volumes, mounts, JuiceSlots(s), podVolumes, podMounts, ServerlessSlots(s));
        volumes, mounts := volumes + podVolumes, mounts + podMounts;
        var cacheVolumes, cacheMounts := GenPortableCacheVolumes(s);
        BuiltConcat(volumes, mounts, JuiceSlots(s) + ServerlessSlots(s),
                    cacheVolumes, cacheMounts, PortableCacheSlots(s));
        volumes, mounts := volumes + cacheVolumes, mounts + cacheMounts;
    }
  }

  // ---------- the names ----------

  /** Tells the kinds of names apart by single characters. */
  function Tag(name: string): (r: nat)
    requires |name| >= 7
  {
    if name[0] == 'r' then 0
    else if name[0] == 'i' then 1
    else if name[0] == 'j' then (if name[4] == 'd' then 2 else 3)
    else if name[0] == 'u' then 4
    else if name[0] == 'h' then 5
    else if name[1] == 'o' then 6
    else if |name| < 10 then 10
    else if name[9] == 'p' then 7
    else if name[9] == 'e' then 8
    else if name[9] == 'i' then 9
    else 10
  }

  function RoleTag(role: Role): (r: nat) {
    match role
    case RsaKey => 0
    case InitConfig => 1
    case JfsDir => 2
    case CheckMount => 3
    case UpdateDb => 4
    case HostDir(_) => 5
    case Config(_) => 6
    case CacheClaim(_) => 7
    case CacheEmpty => 8
    case CacheInlineVolume(_) => 9
    case CacheDir(_) => 10
  }

  lemma CacheNameTag(role: Role)
    requires role.CacheDir? || role.CacheClaim? || role.CacheInlineVolume?
    ensures |RoleName(role)| >= 7 && Tag(RoleName(role)) == RoleTag(role)
  {
    var digits := Itoa(role.i);
    if role.CacheDir? {
      assert ("cachedir-" + digits)[9] == digits[0] && digits[0] in digits;
    } else if role.CacheClaim? {
      assert ("cachedir-pvc-" + digits)[9] == 'p';
    } else {
      assert ("cachedir-inline-volume-" + digits)[9] == 'i';
    }
  }

  lemma NameTag(role: Role)
    ensures |RoleName(role)| >= 7 && Tag(RoleName(role)) == RoleTag(role)
  {
    if role.CacheDir? || role.CacheClaim? || role.CacheInlineVolume? {
      CacheNameTag(role);
    } else if role.Config? {
      assert ("config-" + Itoa(role.i))[0] == 'c' && ("config-" + Itoa(role.i))[1] == 'o';
    } else if role.HostDir? {
      assert ("hostpath-" + Itoa(role.i))[0] == 'h';
    } else if role.CheckMount? || role.CacheEmpty? || role.JfsDir? {
      PlainNameTag(role);
    }
  }

  lemma PlainNameTag(role: Role)
    requires role.CheckMount? || role.CacheEmpty? || role.JfsDir?
    ensures |RoleName(role)| >= 7 && Tag(RoleName(role)) == RoleTag(role)
  {
  }

  lemma RoleNameInjective(a: Role, b: Role)
    requires RoleName(a) == RoleName(b)
    ensures a == b
  {
    NameTag(a);
    NameTag(b);
    match a
    case Config(i) => ItoaAfter("config-", i, b.i);
    case CacheDir(i) => ItoaAfter("cachedir-", i, b.i);
    case CacheClaim(i) => ItoaAfter("cachedir-pvc-", i, b.i);
    case CacheInlineVolume(i) => ItoaAfter("cachedir-inline-volume-", i, b.i);
    case HostDir(i) => ItoaAfter("hostpath-", i, b.i);
    case _ =>
  }

  lemma ItoaAfter(prefix: string, i: nat, j: nat)
    requires prefix + Itoa(i) == prefix + Itoa(j)
    ensures i == j
  {
    assert (prefix + Itoa(i))[|prefix|..] == Itoa(i);
    assert (prefix + Itoa(j))[|prefix|..] == Itoa(j);
    ItoaInjective(i, j);
  }

  ghost predicate RolesDiffer(slots: seq<Slot>) {
    forall i, j :: 0 <= i < j < |slots| ==> slots[i].role != slots[j].role
  }

  function Tags(slots: seq<Slot>): (r: set<nat>) {
    set x | x in slots :: RoleTag(x.role)
  }

  lemma RolesConcat(a: seq<Slot>, b: seq<Slot>)
    requires RolesDiffer(a) && RolesDiffer(b) && Tags(a) !! Tags(b)
    ensures RolesDiffer(a + b) && Tags(a + b) == Tags(a) + Tags(b)
  {
    forall i, j | 0 <= i < |a| && 0 <= j < |b| ensures a[i].role != b[j].role {
      assert RoleTag(a[i].role) in Tags(a) && RoleTag(b[j].role) in Tags(b);
    }
  }

  lemma JuiceRoles(s: VolumeSetting)
    ensures RolesDiffer(JuiceSlots(s)) && Tags(JuiceSlots(s)) <= {0, 1, 6}
  {
    RolesConcat(RsaSlots(s), InitSlots(s));
    RolesConcat(RsaSlots(s) + InitSlots(s), ConfigSlots(s));
  }

  lemma PortableCacheRoles(s: VolumeSetting)
    ensures RolesDiffer(PortableCacheSlots(s)) && Tags(PortableCacheSlots(s)) <= {7, 8, 9}
  {
    RolesConcat(CacheClaimSlots(s), CacheEmptySlots(s));
    RolesConcat(CacheClaimSlots(s) + CacheEmptySlots(s), CacheInlineSlots(s));
  }

  lemma CacheRoles(s: VolumeSetting)
    ensures RolesDiffer(CacheSlots(s)) && Tags(CacheSlots(s)) <= {7, 8, 9, 10}
  {
    PortableCacheRoles(s);
    RolesConcat(CacheDirSlots(s), PortableCacheSlots(s));
  }

  lemma DirRoles(s: VolumeSetting)
    ensures RolesDiffer(PodSlots(s)) && Tags(PodSlots(s)) <= {2, 4}
    ensures RolesDiffer(ServerlessSlots(s)) && Tags(ServerlessSlots(s)) <= {2, 3}
    ensures RolesDiffer(HostSlots(s)) && Tags(HostSlots(s)) <= {5}
    ensures RolesDiffer(CheckMountSlots(s)) && Tags(CheckMountSlots(s)) <= {3}
  {
  }

  lemma FrontRoles(s: VolumeSetting)
    ensures var front := JuiceSlots(s) + PodSlots(s); RolesDiffer(front) && Tags(front) <= {0, 1, 2, 4, 6}
  {
    JuiceRoles(s);
    DirRoles(s);
    ConcatWithin(JuiceSlots(s), PodSlots(s), {0, 1, 6}, {2, 4});
  }

  lemma MostRoles(s: VolumeSetting)
    ensures var most := JuiceSlots(s) + PodSlots(s) + CacheSlots(s);
      RolesDiffer(most) && 3 !in Tags(most) && 5 !in Tags(most)
  {
    FrontRoles(s);
    CacheRoles(s);
    assert forall t :: t in Tags(JuiceSlots(s) + PodSlots(s)) ==> t < 7 && t != 3 && t != 5;
    assert forall t :: t in Tags(CacheSlots(s)) ==> t >= 7;
    RolesConcat(JuiceSlots(s) + PodSlots(s), CacheSlots(s));
  }

  lemma MountPodRoles(s: VolumeSetting)
    ensures RolesDiffer(MountPodSlots(s)) && 3 !in Tags(MountPodSlots(s))
  {
    MostRoles(s);
    DirRoles(s);
    RolesConcat(JuiceSlots(s) + PodSlots(s) + CacheSlots(s), HostSlots(s));
  }

  lemma ConcatWithin(a: seq<Slot>, b: seq<Slot>, s: set<nat>, t: set<nat>)
    requires RolesDiffer(a) && RolesDiffer(b) && Tags(a) <= s && Tags(b) <= t && s !! t
    ensures RolesDiffer(a + b) && Tags(a + b) <= s + t
  {
    RolesConcat(a, b);
  }

  lemma SidecarRoles(s: VolumeSetting, kind: Kind)
    ensures RolesDiffer(SidecarSlots(s, kind))
  {
    DirRoles(s);
    if kind.Container? {
      MountPodRoles(s);
      RolesConcat(MountPodSlots(s), CheckMountSlots(s));
    } else {
      ServerlessRoles(s);
    }
  }

  lemma ServerlessRoles(s: VolumeSetting)
    ensures RolesDiffer(SidecarSlots(s, Serverless))
  {
    JuiceRoles(s);
    DirRoles(s);
    PortableCacheRoles(s);
    ConcatWithin(JuiceSlots(s), ServerlessSlots(s), {0, 1, 6}, {2, 3});
    ConcatWithin(JuiceSlots(s) + ServerlessSlots(s), PortableCacheSlots(s), {0, 1, 6, 2, 3}, {7, 8, 9});
  }

  function VolumeNames(volumes: seq<Volume>): (names: seq<string>)
    ensures |names| == |volumes|
    ensures forall i :: 0 <= i < |names| ==> names[i] == volumes[i].name
  {
    seq(|volumes|, i requires 0 <= i < |volumes| => volumes[i].name)
  }

  lemma NamesDiffer(slots: seq<Slot>)
    requires RolesDiffer(slots)
    ensures Distinct(VolumeNames(VolumesOf(slots)))
  {
    forall i, j | 0 <= i < j < |slots| ensures RoleName(slots[i].role) != RoleName(slots[j].role) {
      if RoleName(slots[i].role) == RoleName(slots[j].role) {
        RoleNameInjective(slots[i].role, slots[j].role);
      }
    }
  }

  /** The volumes of a mount pod and of a sidecar have distinct names. */
  lemma VolumeNamesDiffer(s: VolumeSetting, kind: Kind)
    ensures Distinct(VolumeNames(VolumesOf(MountPodSlots(s))))
    ensures Distinct(VolumeNames(VolumesOf(SidecarSlots(s, kind))))
  {
    MountPodRoles(s);
    NamesDiffer(MountPodSlots(s));
    SidecarRoles(s, kind);
    NamesDiffer(SidecarSlots(s, kind));
  }
}
