/** The cache directories of a mount pod: read from the volume context and from the mount options, which the
    parser edits in place, and mounted as volumes. */
module CacheDirs {
  import opened PodVolumes
  import opened Strings
  import opened Wrappers

  const MEMORY := "memory"
  const DEFAULT_DIR := "/var/jfsCache"
  const EMPTY_DIR_PATH := "/var/jfsCache-emptyDir"
  const OPTION := "cache-dir="

  /** The cache entries of the volume context. `inline` holds the drivers listed there, if it is proper JSON;
      `quantityOk` tells whether the size limit is a resource quantity. */
  datatype Context = Context(
    pvc: string,
    emptyDir: Option<string>,
    inline: Option<Option<seq<string>>>,
    quantityOk: bool)

  datatype CacheSetting = CacheSetting(
    options: seq<string>,
    dirs: seq<string>,
    pvcs: seq<CachePvc>,
    emptyDir: Option<CacheEmptyDir>,
    inlines: seq<CacheInline>)

  // ---------- what is parsed ----------

  function ClaimsIn(names: seq<string>): (r: seq<CachePvc>) {
    if names == [] then []
    else
      var n := |names| - 1;
      if names[n] == "" then ClaimsIn(names[..n])
      else ClaimsIn(names[..n]) + [CachePvc(names[n], DEFAULT_DIR + "-" + Itoa(n))]
  }

  function Claims(ctx: Context): (r: seq<CachePvc>) {
    if ctx.pvc == "" then [] else ClaimsIn(Split(TrimSpace(ctx.pvc), ','))
  }

  function ClaimPaths(claims: seq<CachePvc>): (r: seq<string>) {
    seq(|claims|, i requires 0 <= i < |claims| => claims[i].path)
  }

  /** "medium" or "medium:size". */
  function Medium(text: string): (r: string) {
    var parts := Split(TrimSpace(text), ':');
    if |parts| == 1 || |parts| == 2 then TrimSpace(parts[0]) else ""
  }

  function SizeLimit(text: string): (r: string) {
    var parts := Split(TrimSpace(text), ':');
    if |parts| == 2 then TrimSpace(parts[1]) else ""
  }

  function EmptyDirOf(ctx: Context): (r: Option<CacheEmptyDir>) {
    match ctx.emptyDir case None => None case Some(text) => Some(CacheEmptyDir(Medium(text), EMPTY_DIR_PATH))
  }

  function EmptyDirPaths(ctx: Context): (r: seq<string>) {
    if ctx.emptyDir.Some? then [EMPTY_DIR_PATH] else []
  }

  function InlinePath(i: nat): (r: string) {
    "/var/jfsCache-inlineVolume-" + Itoa(i)
  }

  function Inlines(ctx: Context): (r: seq<CacheInline>) {
    if ctx.inline.Some? && ctx.inline.value.Some? then
      var drivers := ctx.inline.value.value;
      seq(|drivers|, i requires 0 <= i < |drivers| => CacheInline(drivers[i], InlinePath(i)))
    else []
  }

  function InlinePaths(inlines: seq<CacheInline>): (r: seq<string>) {
    seq(|inlines|, i requires 0 <= i < |inlines| => inlines[i].path)
  }

  predicate ContextOk(ctx: Context) {
    && (ctx.emptyDir.Some? && SizeLimit(ctx.emptyDir.value) != "" ==> ctx.quantityOk)
    && (ctx.inline.Some? ==> ctx.inline.value.Some?)
  }

  predicate IsCacheDir(option: string) {
    HasPrefix(option, "cache-dir") && |Split(option, '=')| == 2
  }

  /** The first option that sets cache directories. */
  function FirstCacheDir(options: seq<string>, i: nat): (k: nat)
    requires i <= |options|
    ensures i <= k <= |options|
    ensures k < |options| ==> IsCacheDir(options[k])
    ensures forall j :: i <= j < k ==> !IsCacheDir(options[j])
    decreases |options| - i
  {
    if i == |options| || IsCacheDir(options[i]) then i else FirstCacheDir(options, i + 1)
  }

  function OptionDirs(options: seq<string>): (r: seq<string>) {
    var k := FirstCacheDir(options, 0);
    if k < |options| then Split(TrimSpace(Split(options[k], '=')[1]), ':') else []
  }

  function AllDirs(options: seq<string>, ctx: Context): (r: seq<string>) {
    ClaimPaths(Claims(ctx)) + EmptyDirPaths(ctx) + InlinePaths(Inlines(ctx)) + OptionDirs(options)
  }

  function WithoutMemory(dirs: seq<string>): (r: seq<string>) {
    if dirs == [] then []
    else
      var last := dirs[|dirs| - 1];
      WithoutMemory(dirs[..|dirs| - 1]) + if last == MEMORY then [] else [last]
  }

  /** Removing entry `k` in place: the entries behind it move up, and the last one stays behind as well. */
  function Shifted(options: seq<string>, k: nat): (r: seq<string>)
    requires k <= |options|
  {
    if k == |options| then options else options[..k] + options[k + 1..] + [options[|options| - 1]]
  }

  function Without(options: seq<string>, k: nat): (r: seq<string>)
    requires k <= |options|
  {
    if k == |options| then options else options[..k] + options[k + 1..]
  }

  function NewOptions(options: seq<string>, ctx: Context): (r: seq<string>) {
    var k := FirstCacheDir(options, 0);
    var value := Join(AllDirs(options, ctx), ":");
    if value != "" then Without(options, k) + [OPTION + value] else Shifted(options, k)
  }

  function Parsed(options: seq<string>, ctx: Context): (r: CacheSetting) {
    CacheSetting(
      NewOptions(options, ctx),
      if AllDirs(options, ctx) == [] then [DEFAULT_DIR] else WithoutMemory(OptionDirs(options)),
      Claims(ctx), EmptyDirOf(ctx), Inlines(ctx))
  }

  // ---------- the parser ----------

  method ParseClaims(ctx: Context) returns (claims: seq<CachePvc>, dirs: seq<string>)
    ensures claims == Claims(ctx) && dirs == ClaimPaths(claims)
  {
    claims, dirs := [], [];
    if ctx.pvc != "" {
      var names := Split(TrimSpace(ctx.pvc), ',');
      for i := 0 to |names|
        invariant claims == ClaimsIn(names[..i]) && dirs == ClaimPaths(claims)
      {
        assert names[..i + 1][..i] == names[..i];
        if names[i] == "" {
          continue;
        }
        var volPath := "/var/jfsCache-" + Itoa(i);
        assert volPath == DEFAULT_DIR + "-" + Itoa(i);
        claims := claims + [CachePvc(names[i], volPath)];
        dirs := dirs + [volPath];
      }
      assert names[..|names|] == names;
    }
  }

  method ParseInlines(ctx: Context) returns (inlines: seq<CacheInline>, dirs: seq<string>)
    ensures inlines == Inlines(ctx) && dirs == InlinePaths(inlines)
  {
    inlines, dirs := [], [];
    if ctx.inline.Some? && ctx.inline.value.Some? {
      var drivers := ctx.inline.value.value;
      for i := 0 to |drivers|
        invariant inlines == Inlines(ctx)[..i] && dirs == InlinePaths(inlines)
      {
        dirs := dirs + [InlinePath(i)];
        inlines := inlines + [CacheInline(drivers[i], InlinePath(i))];
      }
    }
  }

  lemma DefaultKept()
    ensures WithoutMemory([DEFAULT_DIR]) == [DEFAULT_DIR]
  {
    assert [DEFAULT_DIR][..0] == [];
  }

  /** `append(options[:k], options[k+1:]...)` moves the entries within the array. */
  method RemoveAt(options: array<string>, k: nat)
    requires k < options.Length
    modifies options
    ensures options[..] == Shifted(old(options[..]), k)
  {
    for j := k to options.Length - 1
      invariant forall i :: 0 <= i < k ==> options[i] == old(options[i])
      invariant forall i :: k <= i < j ==> options[i] == old(options[i + 1])
      invariant forall i :: j <= i < options.Length ==> options[i] == old(options[i])
    {
      options[j] := options[j + 1];
    }
    ghost var s := old(options[..]);
    assert forall i :: k <= i < |s| - 1 ==> Shifted(s, k)[i] == s[i + 1];
  }

  /** The part of `ParseSetting` about caches, on the caller's array of options. The setting starts out with that
      very array, and gets a new one only when there are directories to write back. */
  method ParseSetting(options: array<string>, ctx: Context) returns (r: Result<CacheSetting, string>)
    modifies options
    ensures r.Ok? <==> ContextOk(ctx)
    ensures r.Ok? ==> r.value == Parsed(old(options[..]), ctx)
    ensures r.Err? ==> options[..] == old(options[..])
  {
    ghost var before := options[..];
    var pvcs, dirs := ParseClaims(ctx);
    var emptyDir := None;
    if ctx.emptyDir.Some? {
      dirs := dirs + [EMPTY_DIR_PATH];
      var text := ctx.emptyDir.value;
      emptyDir := Some(CacheEmptyDir(Medium(text), EMPTY_DIR_PATH));
      if SizeLimit(text) != "" && !ctx.quantityOk {
        return Err("size limit");
      }
    }
    assert dirs == ClaimPaths(Claims(ctx)) + EmptyDirPaths(ctx);
    if ctx.inline.Some? && ctx.inline.value.None? {
      return Err("inline volumes");
    }
    var inlines, inlineDirs := ParseInlines(ctx);
    dirs := dirs + inlineDirs;
    var cacheDirs, visible := TakeCacheDir(options);
    dirs := dirs + cacheDirs;
    assert dirs == AllDirs(before, ctx);
    var value := Join(dirs, ":");
    var newOptions := options[..];
    if value != "" {
      newOptions := options[..visible] + [OPTION + value];
      if visible < options.Length {
        options[visible] := OPTION + value;
      }
    }
    if |dirs| == 0 {
      cacheDirs := [DEFAULT_DIR];
      DefaultKept();
    }
    var kept := FilterMemory(cacheDirs);
    r := Ok(CacheSetting(newOptions, kept, pvcs, emptyDir, inlines));
  }

  /** Takes the first option that sets cache directories out of the array; `visible` is how many options are left. */
  method TakeCacheDir(options: array<string>) returns (cacheDirs: seq<string>, visible: nat)
    modifies options
    ensures cacheDirs == OptionDirs(old(options[..]))
    ensures options[..] == Shifted(old(options[..]), FirstCacheDir(old(options[..]), 0))
    ensures visible <= options.Length
    ensures options[..visible] == Without(old(options[..]), FirstCacheDir(old(options[..]), 0))
  {
    cacheDirs, visible := [], options.Length;
    for i := 0 to options.Length
      invariant options[..] == old(options[..])
      invariant FirstCacheDir(options[..], 0) == FirstCacheDir(options[..], i)
    {
      if HasPrefix(options[i], "cache-dir") {
        var optValPair := Split(options[i], '=');
        if |optValPair| != 2 {
          continue;
        }
        cacheDirs := Split(TrimSpace(optValPair[1]), ':');
        RemoveAt(options, i);
        visible := options.Length - 1;
        return;
      }
    }
  }

  method FilterMemory(dirs: seq<string>) returns (kept: seq<string>)
    ensures kept == WithoutMemory(dirs)
  {
    kept := [];
    for i := 0 to |dirs|
      invariant kept == WithoutMemory(dirs[..i])
    {
      assert dirs[..i + 1][..i] == dirs[..i];
      if dirs[i] != MEMORY {
        kept := kept + [dirs[i]];
      }
    }
    assert dirs[..|dirs|] == dirs;
  }

  // ---------- what is read, stated on the texts ----------

  /** The claims are the non-empty names of the list in order, each with a directory numbered by its place. */
  lemma {:induction false} ClaimsAre(names: seq<string>, n: nat)
    requires n < |names|
    ensures ClaimsIn(names[..n + 1]) ==
      ClaimsIn(names[..n]) + if names[n] == "" then [] else [CachePvc(names[n], "/var/jfsCache-" + Itoa(n))]
  {
    assert names[..n + 1][..n] == names[..n];
    assert "/var/jfsCache" + "-" == "/var/jfsCache-";
  }

  /** "a,b" with white space around it lists the claims "a" and "b", for any number of claims. */
  lemma ClaimsListed(ctx: Context, names: seq<string>, a: string, b: string)
    requires ctx.pvc == a + Join(names, ",") + b && Blank(a) && Blank(b) && Trimmed(Join(names, ","))
    requires names != [] && (forall p :: p in names ==> ',' !in p) && ctx.pvc != ""
    ensures Claims(ctx) == ClaimsIn(names)
  {
    TrimSpaceAround(a, Join(names, ","), b);
    SplitJoin(names, ',');
  }

  /** The empty dir of a context, as "medium" or as "medium:size". */
  lemma EmptyDirIs(ctx: Context, medium: string, size: string)
    requires Trimmed(medium) && Trimmed(size) && ':' !in medium && ':' !in size && medium != "" && size != ""
    ensures ctx.emptyDir == Some(medium) ==>
      EmptyDirOf(ctx) == Some(CacheEmptyDir(medium, "/var/jfsCache-emptyDir")) && SizeLimit(medium) == ""
    ensures ctx.emptyDir == Some(medium + ":" + size) ==>
      EmptyDirOf(ctx) == Some(CacheEmptyDir(medium, "/var/jfsCache-emptyDir")) && SizeLimit(ctx.emptyDir.value) == size
  {
    var text := medium + ":" + size;
    TrimSpaceTrimmed(medium);
    TrimSpaceTrimmed(size);
    TrimSpaceTrimmed(text);
    SplitNoSep(medium, ':');
    SplitHead(medium, ':', size);
    SplitNoSep(size, ':');
  }

  /** Each listed driver gives one volume, at a directory numbered by its place. */
  lemma InlinesAre(ctx: Context, drivers: seq<string>)
    requires ctx.inline == Some(Some(drivers))
    ensures |Inlines(ctx)| == |drivers|
    ensures forall i :: 0 <= i < |drivers| ==>
      Inlines(ctx)[i] == CacheInline(drivers[i], "/var/jfsCache-inlineVolume-" + Itoa(i))
  {
  }

  /** The first option of the form `cache-dir=a:b` gives the directories "a" and "b", for any number of them. */
  lemma OptionDirsAre(front: seq<string>, dirs: seq<string>, back: seq<string>)
    requires forall o :: o in front ==> !IsCacheDir(o)
    requires dirs != [] && forall d :: d in dirs ==> ':' !in d && '=' !in d
    requires Trimmed(Join(dirs, ":"))
    ensures OptionDirs(front + ["cache-dir=" + Join(dirs, ":")] + back) == dirs
  {
    var text := Join(dirs, ":");
    var option := "cache-dir=" + text;
    var options := front + [option] + back;
    JoinFree(dirs, ":", '=');
    assert option == "cache-dir" + ['='] + text;
    SplitHead("cache-dir", '=', text);
    SplitNoSep(text, '=');
    FirstAt(front, option, back);
    assert options[|front|] == option;
    TrimSpaceTrimmed(text);
    SplitJoin(dirs, ':');
  }

  // ---------- directories and volumes ----------

  /** The setting of a mount pod with these caches. */
  function WithCaches(s: VolumeSetting, c: CacheSetting): (r: VolumeSetting) {
    s.(cacheDirs := c.dirs, cachePvcs := c.pvcs, cacheEmptyDir := c.emptyDir, cacheInlines := c.inlines)
  }

  function Paths(slots: seq<Slot>): (r: seq<string>) {
    seq(|slots|, i requires 0 <= i < |slots| => slots[i].path)
  }

  lemma PathsConcat(a: seq<Slot>, b: seq<Slot>)
    ensures Paths(a + b) == Paths(a) + Paths(b)
  {
  }

  lemma CachePaths(s: VolumeSetting)
    ensures Paths(CacheSlots(s)) ==
      s.cacheDirs + (ClaimPaths(s.cachePvcs) + (match s.cacheEmptyDir case None => [] case Some(d) => [d.path]) +
                     InlinePaths(s.cacheInlines))
  {
    PathsConcat(CacheDirSlots(s), PortableCacheSlots(s));
    PathsConcat(CacheClaimSlots(s) + CacheEmptySlots(s), CacheInlineSlots(s));
    PathsConcat(CacheClaimSlots(s), CacheEmptySlots(s));
    assert Paths(CacheDirSlots(s)) == s.cacheDirs;
    assert Paths(CacheClaimSlots(s)) == ClaimPaths(s.cachePvcs);
    assert Paths(CacheInlineSlots(s)) == InlinePaths(s.cacheInlines);
    assert Paths(CacheEmptySlots(s)) == match s.cacheEmptyDir case None => [] case Some(d) => [d.path];
  }

  /** No generated path is "memory" or has a colon. */
  predicate Generated(paths: seq<string>) {
    forall p :: p in paths ==> HasPrefix(p, DEFAULT_DIR) && ':' !in p
  }

  lemma DigitsNoColon(n: nat)
    ensures ':' !in Itoa(n)
  {
  }

  lemma {:induction false} ClaimsGenerated(names: seq<string>)
    ensures Generated(ClaimPaths(ClaimsIn(names)))
  {
    if names != [] {
      var n := |names| - 1;
      ClaimsGenerated(names[..n]);
      DigitsNoColon(n);
      var path := DEFAULT_DIR + "-" + Itoa(n);
      assert path == DEFAULT_DIR + ("-" + Itoa(n));
      var claims := ClaimsIn(names[..n]);
      assert ClaimPaths(claims + [CachePvc(names[n], path)]) == ClaimPaths(claims) + [path];
    }
  }

  function GeneratedDirs(ctx: Context): (r: seq<string>) {
    ClaimPaths(Claims(ctx)) + EmptyDirPaths(ctx) + InlinePaths(Inlines(ctx))
  }

  lemma InlinePathGenerated(i: nat)
    ensures HasPrefix(InlinePath(i), DEFAULT_DIR) && ':' !in InlinePath(i)
  {
    DigitsNoColon(i);
    assert InlinePath(i) == DEFAULT_DIR + ("-inlineVolume-" + Itoa(i));
  }

  lemma InlinesGenerated(ctx: Context)
    ensures Generated(InlinePaths(Inlines(ctx)))
  {
    forall p | p in InlinePaths(Inlines(ctx)) ensures HasPrefix(p, DEFAULT_DIR) && ':' !in p {
      var i :| 0 <= i < |Inlines(ctx)| && p == InlinePath(i);
      InlinePathGenerated(i);
    }
  }

  lemma AllGenerated(ctx: Context)
    ensures Generated(GeneratedDirs(ctx))
  {
    if ctx.pvc != "" {
      ClaimsGenerated(Split(TrimSpace(ctx.pvc), ','));
    }
    InlinesGenerated(ctx);
    assert EMPTY_DIR_PATH == DEFAULT_DIR + "-emptyDir";
    assert Generated(EmptyDirPaths(ctx));
    assert Generated(ClaimPaths(Claims(ctx)));
  }

  lemma {:induction false} WithoutMemoryConcat(a: seq<string>, b: seq<string>)
    ensures WithoutMemory(a + b) == WithoutMemory(a) + WithoutMemory(b)
  {
    if b == [] {
      assert a + b == a;
    } else {
      var front := b[..|b| - 1];
      assert (a + b)[..|a + b| - 1] == a + front;
      WithoutMemoryConcat(a, front);
    }
  }

  lemma {:induction false} NoMemory(paths: seq<string>)
    requires Generated(paths)
    ensures WithoutMemory(paths) == paths
  {
    if paths != [] {
      NoMemory(paths[..|paths| - 1]);
      assert paths == paths[..|paths| - 1] + [paths[|paths| - 1]];
      assert HasPrefix(paths[|paths| - 1], DEFAULT_DIR);
    }
  }

  lemma {:induction false} JoinEmptyIff(parts: seq<string>)
    ensures Join(parts, ":") == "" <==> parts == [] || parts == [""]
  {
  }

  /** Whatever the options and the context: unless the list of directories is empty or a single empty entry, the
      rebuilt option lists it, and the mount pod mounts exactly the listed paths other than "memory". */
  lemma CacheDirsAgree(s: VolumeSetting, options: seq<string>, ctx: Context)
    requires AllDirs(options, ctx) != [] && AllDirs(options, ctx) != [""]
    ensures var c := Parsed(options, ctx);
      && c.options != []
      && HasPrefix(c.options[|c.options| - 1], OPTION)
      && multiset(Paths(CacheSlots(WithCaches(s, c)))) ==
           multiset(WithoutMemory(Split(TrimPrefix(c.options[|c.options| - 1], OPTION), ':')))
  {
    RebuiltOption(options, ctx);
    DirsSplit(options, ctx);
    MountedPaths(s, options, ctx);
    AllGenerated(ctx);
    WithoutMemoryConcat(GeneratedDirs(ctx), OptionDirs(options));
    NoMemory(GeneratedDirs(ctx));
  }

  lemma RebuiltOption(options: seq<string>, ctx: Context)
    requires AllDirs(options, ctx) != [] && AllDirs(options, ctx) != [""]
    ensures var now := Parsed(options, ctx).options;
      && now != []
      && HasPrefix(now[|now| - 1], OPTION)
      && TrimPrefix(now[|now| - 1], OPTION) == Join(AllDirs(options, ctx), ":")
  {
    var value := Join(AllDirs(options, ctx), ":");
    JoinEmptyIff(AllDirs(options, ctx));
    assert (OPTION + value)[..|OPTION|] == OPTION && (OPTION + value)[|OPTION|..] == value;
  }

  lemma MountedPaths(s: VolumeSetting, options: seq<string>, ctx: Context)
    requires AllDirs(options, ctx) != []
    ensures AllDirs(options, ctx) == GeneratedDirs(ctx) + OptionDirs(options)
    ensures Paths(CacheSlots(WithCaches(s, Parsed(options, ctx)))) ==
      WithoutMemory(OptionDirs(options)) + GeneratedDirs(ctx)
  {
    CachePaths(WithCaches(s, Parsed(options, ctx)));
  }

  lemma DirsSplit(options: seq<string>, ctx: Context)
    requires AllDirs(options, ctx) != []
    ensures Split(Join(AllDirs(options, ctx), ":"), ':') == AllDirs(options, ctx)
  {
    AllGenerated(ctx);
    var k := FirstCacheDir(options, 0);
    if k < |options| {
      SplitParts(TrimSpace(Split(options[k], '=')[1]), ':');
    }
    assert AllDirs(options, ctx) == GeneratedDirs(ctx) + OptionDirs(options);
    SplitJoin(AllDirs(options, ctx), ':');
  }

  /** Without any directory, the default one is mounted and the options stay as they are. */
  lemma NoCacheDirs(s: VolumeSetting, options: seq<string>, ctx: Context)
    requires AllDirs(options, ctx) == []
    ensures var c := Parsed(options, ctx); c.options == options && Paths(CacheSlots(WithCaches(s, c))) == [DEFAULT_DIR]
  {
    var c := Parsed(options, ctx);
    CachePaths(WithCaches(s, c));
    SomeDirs(options);
    assert |ClaimPaths(Claims(ctx))| == 0 && |EmptyDirPaths(ctx)| == 0 && |InlinePaths(Inlines(ctx))| == 0;
  }

  lemma SomeDirs(options: seq<string>)
    ensures OptionDirs(options) == [] <==> FirstCacheDir(options, 0) == |options|
  {
  }

  lemma StartsGenerated(options: seq<string>, ctx: Context)
    requires GeneratedDirs(ctx) != []
    ensures AllDirs(options, ctx) != [] && HasPrefix(AllDirs(options, ctx)[0], DEFAULT_DIR)
  {
    AllGenerated(ctx);
    assert GeneratedDirs(ctx)[0] in GeneratedDirs(ctx);
    assert AllDirs(options, ctx) == GeneratedDirs(ctx) + OptionDirs(options);
  }

  /** The list of directories is a single empty entry: only an empty `cache-dir` option gives that. */
  lemma EmptyList(s: VolumeSetting, options: seq<string>, ctx: Context)
    requires AllDirs(options, ctx) == [""]
    ensures FirstCacheDir(options, 0) < |options|
    ensures Parsed(options, ctx).options == Shifted(options, FirstCacheDir(options, 0))
    ensures Paths(CacheSlots(WithCaches(s, Parsed(options, ctx)))) == [""]
  {
    AllGenerated(ctx);
    assert AllDirs(options, ctx) == GeneratedDirs(ctx) + OptionDirs(options);
    if GeneratedDirs(ctx) != [] {
      StartsGenerated(options, ctx);
      assert false;
    }
    assert OptionDirs(options) == [""];
    SomeDirs(options);
    CachePaths(WithCaches(s, Parsed(options, ctx)));
    assert WithoutMemory([""]) == [""] by {
      assert [""][..0] == [];
    }
    assert |ClaimPaths(Claims(ctx))| == 0 && |EmptyDirPaths(ctx)| == 0 && |InlinePaths(Inlines(ctx))| == 0;
  }

  lemma ShiftedCounts(options: seq<string>, k: nat)
    requires k < |options|
    ensures |Shifted(options, k)| == |options|
    ensures Shifted(options, k)[|options| - 1] == options[|options| - 1]
    ensures multiset(Shifted(options, k)) ==
      multiset(options) - multiset{options[k]} + multiset{options[|options| - 1]}
  {
    assert options == options[..k] + [options[k]] + options[k + 1..];
  }

  lemma LastDoubledIff(options: seq<string>, k: nat)
    requires k < |options|
    ensures var last := options[|options| - 1];
      multiset(Shifted(options, k))[last] == multiset(options)[last] + 1 <==> options[k] != last
  {
    ShiftedCounts(options, k);
    assert options[k] in multiset(options) && options[|options| - 1] in multiset(options);
  }

  lemma {:induction false} ShiftedSameIff(options: seq<string>, k: nat)
    requires k < |options|
    ensures Shifted(options, k) == options <==> forall j :: k <= j < |options| ==> options[j] == options[k]
  {
    var shifted := Shifted(options, k);
    assert forall j :: k <= j < |options| - 1 ==> shifted[j] == options[j + 1];
    if shifted == options {
      AllAlike(options, k, |options| - 1);
    }
  }

  lemma {:induction false} AllAlike(options: seq<string>, k: nat, n: nat)
    requires k <= n < |options| && forall j :: k <= j < |options| - 1 ==> options[j] == options[j + 1]
    ensures forall j :: k <= j <= n ==> options[j] == options[k]
  {
    if k < n {
      AllAlike(options, k, n - 1);
      assert options[n - 1] == options[(n - 1) + 1];
    }
  }

  lemma ShiftedFacts(options: seq<string>, now: seq<string>, k: nat)
    requires k < |options| && now == Shifted(options, k)
    ensures var last := options[|options| - 1];
      && now == Without(options, k) + [last]
      && (multiset(now)[last] == multiset(options)[last] + 1 <==> options[k] != last)
      && (now == options <==> forall j :: k <= j < |options| ==> options[j] == options[k])
  {
    LastDoubledIff(options, k);
    ShiftedSameIff(options, k);
  }

  /** With an empty `cache-dir` option as the only directory, that option goes and the others move up in the shared
      array, whose last entry stays: it is there once more than before exactly when it is another option, and nothing
      changes exactly when only like options follow. A volume with an empty path is mounted. */
  lemma EmptyCacheDir(s: VolumeSetting, options: seq<string>, ctx: Context)
    requires AllDirs(options, ctx) == [""]
    ensures FirstCacheDir(options, 0) < |options|
    ensures var c, k, last := Parsed(options, ctx), FirstCacheDir(options, 0), options[|options| - 1];
      && c.options == Without(options, k) + [last]
      && (multiset(c.options)[last] == multiset(options)[last] + 1 <==> options[k] != last)
      && (c.options == options <==> forall j :: k <= j < |options| ==> options[j] == options[k])
      && Paths(CacheSlots(WithCaches(s, c))) == [""]
  {
    EmptyList(s, options, ctx);
    ShiftedFacts(options, Parsed(options, ctx).options, FirstCacheDir(options, 0));
  }

  // ---------- exactly when the mounted paths agree ----------

  /** The last option lists the directories, and the mounted paths are those other than "memory". */
  predicate PathsAgree(s: VolumeSetting, c: CacheSetting) {
    && c.options != [] && HasPrefix(c.options[|c.options| - 1], OPTION)
    && multiset(Paths(CacheSlots(WithCaches(s, c)))) ==
         multiset(WithoutMemory(Split(TrimPrefix(c.options[|c.options| - 1], OPTION), ':')))
  }

  /** A `cache-dir=` option that lists one empty entry, apart from "memory". */
  predicate ListsEmptyOnly(option: string) {
    HasPrefix(option, OPTION) && WithoutMemory(Split(TrimPrefix(option, OPTION), ':')) == [""]
  }

  /** "memory" is left out, and every other entry stays as often as it is there, in order. */
  lemma {:induction false} MemoryLeftOut(dirs: seq<string>, d: string)
    ensures "memory" !in WithoutMemory(dirs)
    ensures d != "memory" ==> multiset(WithoutMemory(dirs))[d] == multiset(dirs)[d]
    ensures "memory" !in dirs ==> WithoutMemory(dirs) == dirs
  {
    if dirs != [] {
      var front, last := dirs[..|dirs| - 1], dirs[|dirs| - 1];
      assert dirs == front + [last];
      MemoryLeftOut(front, d);
      assert multiset(dirs) == multiset(front) + multiset{last};
    }
  }

  /** Of the options, only the first that sets cache directories is taken out, and the rebuilt one is put at the end. */
  lemma OptionsRewritten(front: seq<string>, option: string, back: seq<string>, ctx: Context)
    requires (forall o :: o in front ==> !IsCacheDir(o)) && IsCacheDir(option)
    requires var all := AllDirs(front + [option] + back, ctx); all != [] && all != [""]
    ensures Parsed(front + [option] + back, ctx).options ==
      front + back + ["cache-dir=" + Join(AllDirs(front + [option] + back, ctx), ":")]
  {
    var options := front + [option] + back;
    FirstAt(front, option, back);
    JoinEmptyIff(AllDirs(options, ctx));
    assert options[..|front|] == front && options[|front| + 1..] == back;
  }

  lemma FirstAt(front: seq<string>, option: string, back: seq<string>)
    requires (forall o :: o in front ==> !IsCacheDir(o)) && IsCacheDir(option)
    ensures FirstCacheDir(front + [option] + back, 0) == |front|
  {
    var options := front + [option] + back;
    assert options[|front|] == option;
    forall j | 0 <= j < |front| ensures !IsCacheDir(options[j]) {
      assert options[j] == front[j] && front[j] in front;
    }
  }

  lemma {:induction false} OthersKept(dirs: seq<string>, d: string)
    requires d in dirs && d != MEMORY
    ensures d in WithoutMemory(dirs)
  {
    var n := |dirs| - 1;
    if dirs[n] != d {
      assert dirs == dirs[..n] + [dirs[n]];
      OthersKept(dirs[..n], d);
    }
  }

  lemma SingletonIff(dirs: seq<string>, d: string)
    ensures multiset([d]) == multiset(dirs) <==> dirs == [d]
  {
    if multiset([d]) == multiset(dirs) {
      assert |multiset(dirs)| == |dirs| && |multiset([d])| == 1;
      assert dirs == [dirs[0]];
      assert d in multiset(dirs);
    }
  }

  /** A last option "cache-dir=..." that is none of the well-formed ones lists an entry with "=". */
  lemma MalformedDiffers(option: string)
    requires HasPrefix(option, OPTION) && !IsCacheDir(option)
    ensures multiset([DEFAULT_DIR]) != multiset(WithoutMemory(Split(TrimPrefix(option, OPTION), ':')))
  {
    var value := TrimPrefix(option, OPTION);
    var parts := Split(value, ':');
    HasEquals(option);
    var p := PartWithEquals(value);
    NoEquals();
    OthersKept(parts, p);
    SingletonIff(WithoutMemory(parts), DEFAULT_DIR);
  }

  lemma NoEquals()
    ensures '=' !in DEFAULT_DIR && '=' !in MEMORY
  {
  }

  lemma PartWithEquals(value: string) returns (p: string)
    requires '=' in value
    ensures p in Split(value, ':') && '=' in p
  {
    SplitParts(value, ':');
    if forall q :: q in Split(value, ':') ==> '=' !in q {
      JoinFree(Split(value, ':'), ":", '=');
    }
    p :| p in Split(value, ':') && '=' in p;
  }

  lemma HasEquals(option: string)
    requires HasPrefix(option, OPTION) && !IsCacheDir(option)
    ensures '=' in TrimPrefix(option, OPTION)
  {
    var value := TrimPrefix(option, OPTION);
    assert option == "cache-dir" + ['='] + value;
    SplitHead("cache-dir", '=', value);
    if '=' !in value {
      SplitNoSep(value, '=');
    }
  }

  lemma NoneWellFormed(options: seq<string>, ctx: Context)
    requires AllDirs(options, ctx) == []
    ensures forall o :: o in options ==> !IsCacheDir(o)
  {
    assert |OptionDirs(options)| == 0;
    SomeDirs(options);
  }

  /** For all inputs: the mounted paths agree with the last option exactly when the list of directories is neither
      empty nor a single empty entry, or is that entry and the last option happens to list it. */
  lemma PathsAgreeIff(s: VolumeSetting, options: seq<string>, ctx: Context)
    ensures PathsAgree(s, Parsed(options, ctx)) <==>
      if AllDirs(options, ctx) == [""] then options != [] && ListsEmptyOnly(options[|options| - 1])
      else AllDirs(options, ctx) != []
  {
    var c := Parsed(options, ctx);
    if AllDirs(options, ctx) == [""] {
      EmptyCacheDir(s, options, ctx);
      SingletonIff(WithoutMemory(Split(TrimPrefix(c.options[|c.options| - 1], OPTION), ':')), "");
    } else if AllDirs(options, ctx) == [] {
      NoCacheDirs(s, options, ctx);
      NoneWellFormed(options, ctx);
      if options != [] && HasPrefix(options[|options| - 1], OPTION) {
        MalformedDiffers(options[|options| - 1]);
      }
    } else {
      CacheDirsAgree(s, options, ctx);
    }
  }
}
