/** What the container of a mount pod or a sidecar finds at which path, and that its commands find their files. */
module PodFiles {
  import opened GoPath
  import opened MountCommand
  import opened PodVolumes
  import opened Strings
  import SidecarTheorems
  import Sidecar

  /** Some mount at this path leads to a volume with this source. */
  ghost predicate Mounted(volumes: seq<Volume>, mounts: seq<VolumeMount>, source: Source, path: string) {
    exists m :: m in mounts && m.path == path && Volume(m.name, source) in volumes
  }

  // ---------- what the builders mount, without the slots ----------

  ghost predicate SecretsAt(s: VolumeSetting, source: Source, path: string) {
    || (&& s.encryptRsaKey != "" && path == "/root/.rsa"
        && source == Secret(s.secretName, [Item("encrypt_rsa_key", "rsa-key.pem")]))
    || (&& s.initConfig != "" && path == "/etc/juicefs"
        && source == Secret(s.secretName, [Item("initconfig", s.name + ".conf")]))
    || (exists c :: c in s.configs && source == Secret(c.0, []) && path == c.1)
  }

  predicate JfsDirAt(source: Source, path: string) {
    source == HostPath("/var/lib/juicefs/volume") && path == "/jfs"
  }

  predicate UpdateDbAt(s: VolumeSetting, source: Source, path: string) {
    !s.immutable && source == HostPath("/etc/updatedb.conf") && path == "/etc/updatedb.conf"
  }

  predicate CheckMountAt(s: VolumeSetting, source: Source, path: string) {
    source == Secret(s.secretName, []) && path == "/check_mount.sh"
  }

  ghost predicate PortableCachesAt(s: VolumeSetting, source: Source, path: string) {
    || (exists c :: c in s.cachePvcs && source == Claim(c.claimName) && path == c.path)
    || (s.cacheEmptyDir.Some? && source == EmptyDir(s.cacheEmptyDir.value.medium) && path == s.cacheEmptyDir.value.path)
    || (exists c :: c in s.cacheInlines && source == Csi(c.driver) && path == c.path)
  }

  predicate SamePathIn(paths: seq<string>, source: Source, path: string) {
    path in paths && source == HostPath(path)
  }

  ghost predicate MountPodAt(s: VolumeSetting, source: Source, path: string) {
    || SecretsAt(s, source, path) || JfsDirAt(source, path) || UpdateDbAt(s, source, path)
    || SamePathIn(s.cacheDirs, source, path) || PortableCachesAt(s, source, path)
    || SamePathIn(s.hostPaths, source, path)
  }

  ghost predicate SidecarAt(s: VolumeSetting, kind: Kind, source: Source, path: string) {
    match kind
    case Container => MountPodAt(s, source, path) || CheckMountAt(s, source, path)
    case Serverless =>
      || SecretsAt(s, source, path) || JfsDirAt(source, path) || CheckMountAt(s, source, path)
      || PortableCachesAt(s, source, path)
  }

  // ---------- from slots to mounts ----------

  ghost predicate InSlots(slots: seq<Slot>, source: Source, path: string) {
    exists x :: x in slots && x.source == source && x.path == path
  }

  lemma InConcat(a: seq<Slot>, b: seq<Slot>, source: Source, path: string)
    ensures InSlots(a + b, source, path) <==> InSlots(a, source, path) || InSlots(b, source, path)
  {
    assert forall x :: x in a + b <==> x in a || x in b;
  }

  lemma MountedIff(volumes: seq<Volume>, mounts: seq<VolumeMount>, slots: seq<Slot>, source: Source, path: string)
    requires Built(volumes, mounts, slots) && RolesDiffer(slots)
    ensures Mounted(volumes, mounts, source, path) <==> InSlots(slots, source, path)
  {
    if Mounted(volumes, mounts, source, path) {
      var m :| m in mounts && m.path == path && Volume(m.name, source) in volumes;
      var i :| 0 <= i < |mounts| && mounts[i] == m;
      var j :| 0 <= j < |volumes| && volumes[j] == Volume(m.name, source);
      NamesDiffer(slots);
      assert VolumeNames(VolumesOf(slots))[i] == VolumeNames(VolumesOf(slots))[j];
      assert slots[i] in slots;
    }
    if InSlots(slots, source, path) {
      var x :| x in slots && x.source == source && x.path == path;
      var i :| 0 <= i < |slots| && slots[i] == x;
      assert mounts[i] in mounts && volumes[i] in volumes;
    }
  }

  lemma JuiceSlotsAre(s: VolumeSetting, source: Source, path: string)
    ensures InSlots(JuiceSlots(s), source, path) <==> SecretsAt(s, source, path)
  {
    InConcat(RsaSlots(s) + InitSlots(s), ConfigSlots(s), source, path);
    InConcat(RsaSlots(s), InitSlots(s), source, path);
    ConfigSlotsAre(s, source, path);
    if s.encryptRsaKey != "" {
      assert RsaSlots(s)[0] in RsaSlots(s);
    }
    if s.initConfig != "" {
      assert InitSlots(s)[0] in InitSlots(s);
    }
  }

  lemma ConfigSlotsAre(s: VolumeSetting, source: Source, path: string)
    ensures InSlots(ConfigSlots(s), source, path) <==>
      exists c :: c in s.configs && source == Secret(c.0, []) && path == c.1
  {
    if exists c :: c in s.configs && source == Secret(c.0, []) && path == c.1 {
      var c :| c in s.configs && source == Secret(c.0, []) && path == c.1;
      var i :| 0 <= i < |s.configs| && s.configs[i] == c;
      assert ConfigSlots(s)[i] in ConfigSlots(s);
    }
  }

  lemma HostPathsAre(s: VolumeSetting, source: Source, path: string)
    ensures InSlots(CacheDirSlots(s), source, path) <==> SamePathIn(s.cacheDirs, source, path)
    ensures InSlots(HostSlots(s), source, path) <==> SamePathIn(s.hostPaths, source, path)
  {
    if SamePathIn(s.cacheDirs, source, path) {
      var i :| 0 <= i < |s.cacheDirs| && s.cacheDirs[i] == path;
      assert CacheDirSlots(s)[i] in CacheDirSlots(s);
    }
    if SamePathIn(s.hostPaths, source, path) {
      var i :| 0 <= i < |s.hostPaths| && s.hostPaths[i] == path;
      assert HostSlots(s)[i] in HostSlots(s);
    }
  }

  lemma PortableCachesAre(s: VolumeSetting, source: Source, path: string)
    ensures InSlots(PortableCacheSlots(s), source, path) <==> PortableCachesAt(s, source, path)
  {
    InConcat(CacheClaimSlots(s) + CacheEmptySlots(s), CacheInlineSlots(s), source, path);
    InConcat(CacheClaimSlots(s), CacheEmptySlots(s), source, path);
    if exists c :: c in s.cachePvcs && source == Claim(c.claimName) && path == c.path {
      var c :| c in s.cachePvcs && source == Claim(c.claimName) && path == c.path;
      var i :| 0 <= i < |s.cachePvcs| && s.cachePvcs[i] == c;
      assert CacheClaimSlots(s)[i] in CacheClaimSlots(s);
    }
    if exists c :: c in s.cacheInlines && source == Csi(c.driver) && path == c.path {
      var c :| c in s.cacheInlines && source == Csi(c.driver) && path == c.path;
      var i :| 0 <= i < |s.cacheInlines| && s.cacheInlines[i] == c;
      assert CacheInlineSlots(s)[i] in CacheInlineSlots(s);
    }
    if s.cacheEmptyDir.Some? {
      assert CacheEmptySlots(s)[0] in CacheEmptySlots(s);
    }
  }

  lemma DirSlotsAre(s: VolumeSetting, source: Source, path: string)
    ensures InSlots(JfsDirSlots(), source, path) <==> JfsDirAt(source, path)
    ensures InSlots(UpdateDbSlots(s), source, path) <==> UpdateDbAt(s, source, path)
    ensures InSlots(CheckMountSlots(s), source, path) <==> CheckMountAt(s, source, path)
  {
    assert JfsDirSlots()[0] in JfsDirSlots() && CheckMountSlots(s)[0] in CheckMountSlots(s);
    if !s.immutable {
      assert UpdateDbSlots(s)[0] in UpdateDbSlots(s);
    }
  }

  lemma MountPodSlotsAre(s: VolumeSetting, source: Source, path: string)
    ensures InSlots(MountPodSlots(s), source, path) <==> MountPodAt(s, source, path)
  {
    InConcat(JuiceSlots(s) + PodSlots(s) + CacheSlots(s), HostSlots(s), source, path);
    InConcat(JuiceSlots(s) + PodSlots(s), CacheSlots(s), source, path);
    InConcat(JuiceSlots(s), PodSlots(s), source, path);
    InConcat(JfsDirSlots(), UpdateDbSlots(s), source, path);
    InConcat(CacheDirSlots(s), PortableCacheSlots(s), source, path);
    JuiceSlotsAre(s, source, path);
    DirSlotsAre(s, source, path);
    HostPathsAre(s, source, path);
    PortableCachesAre(s, source, path);
  }

  lemma ServerlessSlotsAre(s: VolumeSetting, source: Source, path: string)
    ensures InSlots(SidecarSlots(s, Serverless), source, path) <==> SidecarAt(s, Serverless, source, path)
  {
    InConcat(JuiceSlots(s) + ServerlessSlots(s), PortableCacheSlots(s), source, path);
    InConcat(JuiceSlots(s), ServerlessSlots(s), source, path);
    InConcat(JfsDirSlots(), CheckMountSlots(s), source, path);
    JuiceSlotsAre(s, source, path);
    DirSlotsAre(s, source, path);
    PortableCachesAre(s, source, path);
  }

  /** A mount pod mounts exactly these sources at these paths. */
  lemma MountPodMounts(s: VolumeSetting, volumes: seq<Volume>, mounts: seq<VolumeMount>, source: Source, path: string)
    requires Built(volumes, mounts, MountPodSlots(s))
    ensures Mounted(volumes, mounts, source, path) <==> MountPodAt(s, source, path)
  {
    MountPodRoles(s);
    MountedIff(volumes, mounts, MountPodSlots(s), source, path);
    MountPodSlotsAre(s, source, path);
  }

  /** So does a sidecar. */
  lemma SidecarMounts(
    s: VolumeSetting, kind: Kind, volumes: seq<Volume>, mounts: seq<VolumeMount>, source: Source, path: string)
    requires Built(volumes, mounts, SidecarSlots(s, kind))
    ensures Mounted(volumes, mounts, source, path) <==> SidecarAt(s, kind, source, path)
  {
    SidecarRoles(s, kind);
    MountedIff(volumes, mounts, SidecarSlots(s, kind), source, path);
    match kind
    case Container =>
      InConcat(MountPodSlots(s), CheckMountSlots(s), source, path);
      MountPodSlotsAre(s, source, path);
      DirSlotsAre(s, source, path);
    case Serverless => ServerlessSlotsAre(s, source, path);
  }

  // ---------- the files that the commands read ----------

  /** The settings that volumes and commands share. */
  predicate SameSetting(s: VolumeSetting, c: CommandSetting) {
    s.name == c.name && s.encryptRsaKey == c.encryptRsaKey && s.initConfig == c.initConfig
  }

  /** What `NewSecret` stores of these settings; an environment variable of the same name replaces it. */
  function SecretData(s: VolumeSetting, envs: map<string, string>): (data: map<string, string>) {
    (if s.encryptRsaKey != "" then map["encrypt_rsa_key" := s.encryptRsaKey] else map[]) +
    (if s.initConfig != "" then map["initconfig" := s.initConfig] else map[]) + envs
  }

  /** The container finds this content of the secret in this file. */
  ghost predicate ShowsFile(volumes: seq<Volume>, mounts: seq<VolumeMount>, secretName: string,
                            data: map<string, string>, file: string, content: string) {
    exists items, path, item ::
      && Mounted(volumes, mounts, Secret(secretName, items), path) && ItemIs(items, item, path, file)
      && item.key in data && data[item.key] == content
  }

  predicate ItemIs(items: seq<Item>, item: Item, path: string, file: string) {
    item in items && file == path + "/" + item.path
  }

  /** These volumes and mounts are those of a mount pod or of a sidecar. */
  predicate BuiltFor(s: VolumeSetting, volumes: seq<Volume>, mounts: seq<VolumeMount>) {
    || Built(volumes, mounts, MountPodSlots(s))
    || Built(volumes, mounts, SidecarSlots(s, Container))
    || Built(volumes, mounts, SidecarSlots(s, Serverless))
  }

  /** The only items of the setting's secret are the RSA key and the init config. */
  lemma SecretItems(s: VolumeSetting, volumes: seq<Volume>, mounts: seq<VolumeMount>, items: seq<Item>, path: string)
    requires BuiltFor(s, volumes, mounts) && items != []
    ensures Mounted(volumes, mounts, Secret(s.secretName, items), path) <==>
      SecretsAt(s, Secret(s.secretName, items), path)
  {
    if Built(volumes, mounts, MountPodSlots(s)) {
      MountPodMounts(s, volumes, mounts, Secret(s.secretName, items), path);
    } else if Built(volumes, mounts, SidecarSlots(s, Container)) {
      SidecarMounts(s, Container, volumes, mounts, Secret(s.secretName, items), path);
    } else {
      SidecarMounts(s, Serverless, volumes, mounts, Secret(s.secretName, items), path);
    }
  }

  const RSA_FILE := "/root/.rsa/rsa-key.pem"

  function InitFile(name: string): (file: string) {
    "/etc/juicefs/" + name + ".conf"
  }

  lemma NotBelowBoth(a: string, b: string)
    ensures "/etc/juicefs" + "/" + a != "/root/.rsa" + "/" + b
  {
    assert ("/etc/juicefs" + "/" + a)[1] == 'e';
    assert ("/root/.rsa" + "/" + b)[1] == 'r';
  }

  lemma RsaItem(s: VolumeSetting, items: seq<Item>, path: string, item: Item)
    requires SecretsAt(s, Secret(s.secretName, items), path) && ItemIs(items, item, path, RSA_FILE)
    ensures item.key == "encrypt_rsa_key"
  {
    NotBelowBoth(item.path, "rsa-key.pem");
    RsaPath();
  }

  lemma InitItem(s: VolumeSetting, items: seq<Item>, path: string, item: Item)
    requires SecretsAt(s, Secret(s.secretName, items), path) && ItemIs(items, item, path, InitFile(s.name))
    ensures item.key == "initconfig"
  {
    NotBelowBoth(s.name + ".conf", item.path);
    assert "/etc/juicefs" + "/" + (s.name + ".conf") == InitFile(s.name);
  }

  lemma RsaThere(s: VolumeSetting, volumes: seq<Volume>, mounts: seq<VolumeMount>)
    requires s.encryptRsaKey != "" && BuiltFor(s, volumes, mounts)
    ensures Mounted(volumes, mounts, RsaSource(s), "/root/.rsa")
    ensures ItemIs(RsaSource(s).items, Item("encrypt_rsa_key", "rsa-key.pem"), "/root/.rsa", RSA_FILE)
  {
    SecretItems(s, volumes, mounts, [Item("encrypt_rsa_key", "rsa-key.pem")], "/root/.rsa");
    RsaPath();
  }

  lemma RsaPath()
    ensures "/root/.rsa" + "/" + "rsa-key.pem" == RSA_FILE
  {
  }

  lemma InitThere(s: VolumeSetting, volumes: seq<Volume>, mounts: seq<VolumeMount>)
    requires s.initConfig != "" && BuiltFor(s, volumes, mounts)
    ensures Mounted(volumes, mounts, InitSource(s), "/etc/juicefs")
    ensures ItemIs(InitSource(s).items, Item("initconfig", s.name + ".conf"), "/etc/juicefs", InitFile(s.name))
  {
    SecretItems(s, volumes, mounts, InitSource(s).items, "/etc/juicefs");
    assert "/etc/juicefs" + "/" + (s.name + ".conf") == InitFile(s.name);
  }

  /** In every mount pod and sidecar, the file that the commands name as RSA key shows the key of the setting, unless
      an environment variable `encrypt_rsa_key` replaces it. */
  lemma RsaFileIs(
    s: VolumeSetting, envs: map<string, string>, volumes: seq<Volume>, mounts: seq<VolumeMount>, content: string)
    requires s.encryptRsaKey != "" && BuiltFor(s, volumes, mounts)
    ensures ShowsFile(volumes, mounts, s.secretName, SecretData(s, envs), RSA_FILE, content) <==>
      content == if "encrypt_rsa_key" in envs then envs["encrypt_rsa_key"] else s.encryptRsaKey
  {
    RsaThere(s, volumes, mounts);
    forall items, path, item | Mounted(volumes, mounts, Secret(s.secretName, items), path) &&
        ItemIs(items, item, path, RSA_FILE)
      ensures item.key == "encrypt_rsa_key"
    {
      SecretItems(s, volumes, mounts, items, path);
      RsaItem(s, items, path, item);
    }
  }

  /** So does the file that the init command copies. */
  lemma InitFileIs(
    s: VolumeSetting, envs: map<string, string>, volumes: seq<Volume>, mounts: seq<VolumeMount>, content: string)
    requires s.initConfig != "" && BuiltFor(s, volumes, mounts)
    ensures ShowsFile(volumes, mounts, s.secretName, SecretData(s, envs), InitFile(s.name), content) <==>
      content == if "initconfig" in envs then envs["initconfig"] else s.initConfig
  {
    InitThere(s, volumes, mounts);
    forall items, path, item | Mounted(volumes, mounts, Secret(s.secretName, items), path) &&
        ItemIs(items, item, path, InitFile(s.name))
      ensures item.key == "initconfig"
    {
      SecretItems(s, volumes, mounts, items, path);
      InitItem(s, items, path, item);
    }
  }

  /** The init command copies the init config to its place, then runs the format command, to which the community
      edition gives the RSA key; the enterprise edition names the key in its mount options. */
  lemma CommandsNameFiles(c: CommandSetting)
    requires '/' !in c.name
    ensures GenInitCommand(c) ==
      (if c.initConfig == "" then "" else "cp " + InitFile(c.name) + " " + c.clientConfPath + "\n") + (c.formatCmd +
       if c.encryptRsaKey != "" && c.isCe then " --encrypt-rsa-key=" + RSA_FILE else "")
    ensures c.encryptRsaKey != "" && !c.isCe ==> "rsa-key=" + RSA_FILE in MountOptions(c)
  {
    KeyOptions(c);
    var rest := c.formatCmd + if c.encryptRsaKey != "" && c.isCe then " --encrypt-rsa-key=" + RSA_FILE else "";
    if c.initConfig == "" {
      assert "" + rest == rest;
    } else {
      InitPath(c.name + ".conf");
      assert "/etc/juicefs" + "/" + (c.name + ".conf") == InitFile(c.name);
      JoinThree("cp", InitFile(c.name), c.clientConfPath, " ");
      CopyLine(InitFile(c.name), c.clientConfPath, rest);
    }
  }

  lemma KeyOptions(c: CommandSetting)
    ensures " --encrypt-rsa-key=" + RSA_FILE == " --encrypt-rsa-key=/root/.rsa/rsa-key.pem"
    ensures c.encryptRsaKey != "" && !c.isCe ==> "rsa-key=" + RSA_FILE in MountOptions(c)
  {
    if c.encryptRsaKey != "" && !c.isCe {
      KeyOption();
      assert MountOptions(c)[2] == "rsa-key=/root/.rsa/rsa-key.pem";
    }
  }

  lemma KeyOption()
    ensures "rsa-key=" + RSA_FILE == "rsa-key=/root/.rsa/rsa-key.pem"
  {
  }

  lemma CopyLine(file: string, conf: string, rest: string)
    ensures "cp" + " " + file + " " + conf + "\n" + rest == "cp " + file + " " + conf + "\n" + rest
  {
    assert "cp" + " " == "cp ";
  }

  /** A file directly below a directory. */
  lemma PathBelow(elements: seq<string>, file: string)
    requires elements != [] && Element(file) && file != ".."
    requires forall e :: e in elements ==> Element(e) && e != ".."
    ensures var directory := "/" + Join(elements, "/"); PathJoin(directory, file) == directory + "/" + file
  {
    var all, directory := elements + [file], "/" + Join(elements, "/");
    JoinMore(elements, "/", file);
    assert directory + "/" + file == "/" + Join(all, "/");
    ElementsRooted(Join(all, "/"));
    ElementsJoin(all);
    NoStepBack(all, true);
  }

  lemma InitPath(file: string)
    requires Element(file) && file != ".."
    ensures PathJoin(RO_CONF_PATH, file) == "/etc/juicefs" + "/" + file
  {
    var elements := ["etc", "juicefs"];
    JoinMore(["etc"], "/", "juicefs");
    assert ["etc"] + ["juicefs"] == elements && Join(["etc"], "/") == "etc";
    assert RO_CONF_PATH == "/" + Join(elements, "/");
    PathBelow(elements, file);
  }

  lemma VolumePath(file: string)
    requires Element(file) && file != ".."
    ensures PathJoin(MOUNT_POINT_PATH, file) == "/var/lib/juicefs/volume" + "/" + file
  {
    VolumeElements();
    PathBelow(["var", "lib", "juicefs", "volume"], file);
  }

  lemma VolumeElements()
    ensures MOUNT_POINT_PATH == "/" + Join(["var", "lib", "juicefs", "volume"], "/")
    ensures MOUNT_POINT_PATH == "/var/lib/juicefs/volume"
  {
    JoinThree("var", "lib", "juicefs", "/");
    JoinMore(["var", "lib", "juicefs"], "/", "volume");
    assert ["var", "lib", "juicefs"] + ["volume"] == ["var", "lib", "juicefs", "volume"];
  }

  /** A claim's volume shows the app what the first sidecar of that claim mounts below "/jfs": the sidecar sees the
      host's directory there, and the volume is the sub-directory of that name. */
  lemma AppSeesTheMount(pairs: seq<Sidecar.Pair>, claim: string, i: nat, kind: Kind,
                        volumes: seq<Volume>, mounts: seq<VolumeMount>)
    requires SidecarTheorems.FirstWith(pairs, claim, i) && Sidecar.Accepted(pairs[i])
    requires Element(pairs[i].directory) && pairs[i].directory != ".."
    requires Built(volumes, mounts, SidecarSlots(pairs[i].setting.value, kind))
    ensures Mounted(volumes, mounts, HostPath("/var/lib/juicefs/volume"), "/jfs")
    ensures SidecarTheorems.RewrittenBy(Claim(claim), pairs) ==
      HostPath("/var/lib/juicefs/volume" + "/" + pairs[i].directory)
  {
    SidecarTheorems.FirstRewrites(claim, pairs, i);
    VolumePath(pairs[i].directory);
    SidecarMounts(pairs[i].setting.value, kind, volumes, mounts, HostPath("/var/lib/juicefs/volume"), "/jfs");
  }

  lemma JoinThree(a: string, b: string, c: string, sep: string)
    ensures Join([a, b, c], sep) == a + sep + b + sep + c
  {
    assert [a, b, c][1..] == [b, c] && [b, c][1..] == [c];
    assert Join([b, c], sep) == b + sep + Join([c], sep);
    assert a + sep + (b + sep + c) == a + sep + b + sep + c;
  }
}
