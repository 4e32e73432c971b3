/** The identities kept in a CSI target path
    `<pods>/<pod uid>/volumes/kubernetes.io~csi/<pv name>/mount`. */
module TargetPath {
  import opened Strings
  import opened Wrappers

  const CSI_DIRECTORY := "volumes/kubernetes.io~csi"

  /** The first place where `sep` occurs in `s`. */
  function Find(s: string, sep: string): (r: Option<nat>)
    ensures Find(s, sep).Some? ==> Find(s, sep).value + |sep| <= |s|
  {
    if sep <= s then Some(0)
    else if s == "" then None
    else match Find(s[1..], sep)
      case Some(i) => Some(i + 1)
      case None => None
  }

  /** The two parts of a target around its only CSI directory (`strings.Split` into exactly two). */
  function AroundCsiDirectory(target: string): (r: Option<(string, string)>) {
    match Find(target, CSI_DIRECTORY)
    case None => None
    case Some(i) =>
      var after := target[i + |CSI_DIRECTORY|..];
      if Find(after, CSI_DIRECTORY).Some? then None else Some((target[..i], after))
  }

  function LastIndex(s: string, c: char): (r: int)
    ensures -1 <= LastIndex(s, c) < |s|
  {
    if s == "" then -1
    else if s[|s| - 1] == c then |s| - 1
    else LastIndex(s[..|s| - 1], c)
  }

  function Index(s: string, c: char): (r: int)
    ensures -1 <= Index(s, c) < |s|
  {
    if s == "" then -1
    else if s[0] == c then 0
    else
      var i := Index(s[1..], c);
      if i < 0 then -1 else i + 1
  }

  /** The last element of what stands before the CSI directory; the root directory does not count. */
  function PodIn(before: string): (r: string) {
    var podDir := TrimSuffix(before, "/");
    var index := LastIndex(podDir, '/');
    if index <= 0 then "" else podDir[index + 1..]
  }

  /** The UID of the app pod that owns a target; empty when the path has another shape. */
  function GetPodUid(target: string): (r: string) {
    match AroundCsiDirectory(target)
    case None => ""
    case Some(pair) => PodIn(pair.0)
  }

  /** The first element of what stands after the CSI directory. */
  function PVIn(after: string): (r: string) {
    var pvName := TrimPrefix(after, "/");
    var index := Index(pvName, '/');
    if index <= 0 then "" else pvName[..index]
  }

  function GetPVName(target: string): (r: string) {
    match AroundCsiDirectory(target)
    case None => ""
    case Some(pair) => PVIn(pair.1)
  }

  // ---------- what is found in a target ----------

  predicate OccursAt(s: string, sep: string, i: int) {
    0 <= i && i + |sep| <= |s| && s[i..i + |sep|] == sep
  }

  /** The CSI directory occurs here and nowhere else. */
  ghost predicate OnlyAt(target: string, i: nat) {
    OccursAt(target, CSI_DIRECTORY, i) && forall j :: OccursAt(target, CSI_DIRECTORY, j) ==> j == i
  }

  /** These are the parts before and after its only CSI directory. */
  ghost predicate SplitsAt(target: string, before: string, after: string) {
    target == before + CSI_DIRECTORY + after && OnlyAt(target, |before|)
  }

  lemma TailSlice(s: string, j: int, n: nat)
    requires 1 <= j && j + n <= |s|
    ensures s[j..j + n] == s[1..][j - 1..j - 1 + n]
  {
    var x, y := s[j..j + n], s[1..][j - 1..j - 1 + n];
    forall k | 0 <= k < n ensures x[k] == y[k] {
      assert x[k] == s[j + k];
    }
    assert x == y;
  }

  lemma PrefixIff(s: string, sep: string)
    ensures sep <= s <==> OccursAt(s, sep, 0)
  {
  }

  lemma {:induction false} FindOccurs(s: string, sep: string)
    requires Find(s, sep).Some?
    ensures OccursAt(s, sep, Find(s, sep).value)
  {
    PrefixIff(s, sep);
    if !(sep <= s) {
      FindOccurs(s[1..], sep);
      TailSlice(s, Find(s[1..], sep).value + 1, |sep|);
    }
  }

  lemma {:induction false} FindAtMost(s: string, sep: string, j: nat)
    requires OccursAt(s, sep, j)
    ensures Find(s, sep).Some? && Find(s, sep).value <= j
  {
    PrefixIff(s, sep);
    if !(sep <= s) {
      TailSlice(s, j, |sep|);
      FindAtMost(s[1..], sep, j - 1);
    }
  }

  lemma FindIs(s: string, sep: string)
    ensures Find(s, sep).Some? ==> OccursAt(s, sep, Find(s, sep).value)
    ensures forall j :: OccursAt(s, sep, j) ==> Find(s, sep).Some? && Find(s, sep).value <= j
  {
    if Find(s, sep).Some? {
      FindOccurs(s, sep);
    }
    forall j | OccursAt(s, sep, j) ensures Find(s, sep).Some? && Find(s, sep).value <= j {
      FindAtMost(s, sep, j);
    }
  }

  lemma SharedStart(s: string, sep: string, i: int, j: int)
    requires OccursAt(s, sep, i) && OccursAt(s, sep, j) && i < j < i + |sep|
    ensures sep[j - i] == sep[0]
  {
    assert s[i..i + |sep|][j - i] == s[j] == s[j..j + |sep|][0];
  }

  lemma StartsOnce(k: nat)
    requires 0 < k < |CSI_DIRECTORY|
    ensures CSI_DIRECTORY[k] != CSI_DIRECTORY[0]
  {
  }

  /** Two places of the CSI directory do not overlap. */
  lemma NoOverlap(s: string, i: int, j: int)
    requires OccursAt(s, CSI_DIRECTORY, i) && OccursAt(s, CSI_DIRECTORY, j) && i < j
    ensures i + |CSI_DIRECTORY| <= j
  {
    if j < i + |CSI_DIRECTORY| {
      SharedStart(s, CSI_DIRECTORY, i, j);
      StartsOnce(j - i);
    }
  }

  lemma FoundOnly(a: string, b: string)
    requires OnlyAt(a + CSI_DIRECTORY + b, |a|)
    ensures AroundCsiDirectory(a + CSI_DIRECTORY + b) == Some((a, b))
  {
    var target, n := a + CSI_DIRECTORY + b, |CSI_DIRECTORY|;
    FindIs(target, CSI_DIRECTORY);
    FindIs(b, CSI_DIRECTORY);
    assert target[..|a|] == a && target[|a| + n..] == b;
    if Find(b, CSI_DIRECTORY).Some? {
      var j := Find(b, CSI_DIRECTORY).value;
      assert target[|a| + n + j..|a| + n + j + n] == b[j..j + n];
      assert OccursAt(target, CSI_DIRECTORY, |a| + n + j);
    }
  }

  lemma OnlyFound(target: string, a: string, b: string)
    requires AroundCsiDirectory(target) == Some((a, b))
    ensures SplitsAt(target, a, b)
  {
    var n := |CSI_DIRECTORY|;
    FindIs(target, CSI_DIRECTORY);
    FindIs(b, CSI_DIRECTORY);
    assert target == a + target[|a|..|a| + n] + b;
    forall j | OccursAt(target, CSI_DIRECTORY, j) ensures j == |a| {
      if j != |a| {
        NoOverlap(target, |a|, j);
        assert target[j..j + n] == b[j - |a| - n..j - |a|];
        assert OccursAt(b, CSI_DIRECTORY, j - |a| - n);
      }
    }
  }

  lemma AroundIs(target: string, a: string, b: string)
    ensures AroundCsiDirectory(target) == Some((a, b)) <==> SplitsAt(target, a, b)
  {
    if AroundCsiDirectory(target) == Some((a, b)) {
      OnlyFound(target, a, b);
    } else if SplitsAt(target, a, b) {
      FoundOnly(a, b);
    }
  }

  lemma {:induction false} LastIndexOf(front: string, c: char, back: string)
    requires c !in back
    ensures LastIndex(front + [c] + back, c) == |front|
  {
    var s := front + [c] + back;
    if back != "" {
      assert s[..|s| - 1] == front + [c] + back[..|back| - 1];
      LastIndexOf(front, c, back[..|back| - 1]);
    }
  }

  lemma {:induction false} LastIndexNone(s: string, c: char)
    ensures LastIndex(s, c) < 0 ==> c !in s
    ensures LastIndex(s, c) >= 0 ==> s[LastIndex(s, c)] == c && c !in s[LastIndex(s, c) + 1..]
  {
    if s != "" && s[|s| - 1] != c {
      var front := s[..|s| - 1];
      LastIndexNone(front, c);
      assert s == front + [s[|s| - 1]];
      if LastIndex(front, c) >= 0 {
        assert s[LastIndex(front, c) + 1..] == front[LastIndex(front, c) + 1..] + [s[|s| - 1]];
      }
    }
  }

  lemma {:induction false} IndexOf(front: string, c: char, back: string)
    requires c !in front
    ensures Index(front + [c] + back, c) == |front|
  {
    var s := front + [c] + back;
    if front != "" {
      assert s[1..] == front[1..] + [c] + back;
      IndexOf(front[1..], c, back);
    }
  }

  lemma {:induction false} IndexNone(s: string, c: char)
    ensures Index(s, c) < 0 ==> c !in s
    ensures Index(s, c) >= 0 ==> s[Index(s, c)] == c && c !in s[..Index(s, c)]
  {
    if s != "" && s[0] != c {
      IndexNone(s[1..], c);
      assert s == [s[0]] + s[1..];
      if Index(s[1..], c) >= 0 {
        assert s[..Index(s, c)] == [s[0]] + s[1..][..Index(s[1..], c)];
      }
    }
  }

  /** The last element, with or without a slash behind it, and something before it. */
  ghost predicate PodPart(before: string, prefix: string, uid: string, slash: string) {
    prefix != "" && '/' !in uid && (slash == "" || slash == "/") && before == prefix + "/" + uid + slash
  }

  lemma PodInHas(before: string) returns (prefix: string, slash: string)
    requires PodIn(before) != ""
    ensures PodPart(before, prefix, PodIn(before), slash)
  {
    var podDir := TrimSuffix(before, "/");
    var index := LastIndex(podDir, '/');
    LastIndexNone(podDir, '/');
    prefix, slash := podDir[..index], before[|podDir|..];
    assert podDir == prefix + [podDir[index]] + podDir[index + 1..];
    assert before == podDir + slash;
  }

  lemma PodInIff(before: string, uid: string)
    requires uid != ""
    ensures PodIn(before) == uid <==> exists prefix, slash :: PodPart(before, prefix, uid, slash)
  {
    forall prefix, slash | PodPart(before, prefix, uid, slash) ensures PodIn(before) == uid {
      PodDirIs(prefix, uid, slash);
    }
    if PodIn(before) == uid {
      var prefix, slash := PodInHas(before);
    }
  }

  lemma PodDirIs(prefix: string, uid: string, slash: string)
    requires '/' !in uid && (slash == "/" || (slash == "" && uid != ""))
    ensures PodIn(prefix + "/" + uid + slash) == if prefix == "" then "" else uid
  {
    var podDir := prefix + "/" + uid;
    LastIndexOf(prefix, '/', uid);
    assert prefix + ['/'] + uid == podDir;
    if slash == "/" {
      assert (podDir + slash)[..|podDir|] == podDir;
    } else {
      assert podDir + slash == podDir && podDir[|podDir| - 1] == uid[|uid| - 1] && uid[|uid| - 1] in uid;
    }
  }

  ghost predicate PVPart(after: string, slash: string, pv: string, rest: string) {
    '/' !in pv && (slash == "" || slash == "/") && after == slash + pv + "/" + rest
  }

  lemma CutAtSlash(name: string, i: nat)
    requires i < |name| && name[i] == '/'
    ensures name == name[..i] + "/" + name[i + 1..]
  {
  }

  lemma SlashInFront(after: string) returns (slash: string)
    ensures (slash == "" || slash == "/") && after == slash + TrimPrefix(after, "/")
  {
    slash := if "/" <= after then "/" else "";
  }

  lemma PVInHas(after: string) returns (slash: string, rest: string)
    requires PVIn(after) != ""
    ensures PVPart(after, slash, PVIn(after), rest)
  {
    var name := TrimPrefix(after, "/");
    var index := Index(name, '/');
    IndexNone(name, '/');
    CutAtSlash(name, index);
    slash := SlashInFront(after);
    rest := name[index + 1..];
    assert slash + (name[..index] + "/" + rest) == slash + name[..index] + "/" + rest;
  }

  lemma PVInIff(after: string, pv: string)
    requires pv != ""
    ensures PVIn(after) == pv <==> exists slash, rest :: PVPart(after, slash, pv, rest)
  {
    forall slash, rest | PVPart(after, slash, pv, rest) ensures PVIn(after) == pv {
      AfterIs(slash, pv, rest);
    }
    if PVIn(after) == pv {
      var slash, rest := PVInHas(after);
    }
  }

  lemma AfterIs(slash: string, pv: string, rest: string)
    requires '/' !in pv && (slash == "/" || (slash == "" && pv != ""))
    ensures PVIn(slash + pv + "/" + rest) == pv
  {
    IndexOf(pv, '/', rest);
    assert pv + ['/'] + rest == pv + "/" + rest;
    if slash == "" {
      assert slash + pv + "/" + rest == pv + "/" + rest && pv[0] in pv;
    } else {
      assert slash + pv + "/" + rest == "/" + (pv + "/" + rest);
    }
  }

  /** A target has this app pod exactly when it is the element before its only CSI directory, below the root. */
  lemma PodUidIff(target: string, uid: string)
    requires uid != ""
    ensures GetPodUid(target) == uid <==> exists before, after, prefix, slash ::
      SplitsAt(target, before, after) && PodPart(before, prefix, uid, slash)
  {
    if GetPodUid(target) == uid {
      var pair := AroundCsiDirectory(target).value;
      AroundIs(target, pair.0, pair.1);
      PodInIff(pair.0, uid);
    }
    forall before, after, prefix, slash | SplitsAt(target, before, after) && PodPart(before, prefix, uid, slash)
      ensures GetPodUid(target) == uid
    {
      AroundIs(target, before, after);
      PodInIff(before, uid);
    }
  }

  /** A target has this persistent volume exactly when it is the element after its only CSI directory. */
  lemma PVNameIff(target: string, pv: string)
    requires pv != ""
    ensures GetPVName(target) == pv <==> exists before, after, slash, rest ::
      SplitsAt(target, before, after) && PVPart(after, slash, pv, rest)
  {
    if GetPVName(target) == pv {
      var pair := AroundCsiDirectory(target).value;
      AroundIs(target, pair.0, pair.1);
      PVInIff(pair.1, pv);
    }
    forall before, after, slash, rest | SplitsAt(target, before, after) && PVPart(after, slash, pv, rest)
      ensures GetPVName(target) == pv
    {
      AroundIs(target, before, after);
      PVInIff(after, pv);
    }
  }

  /** A target as the kubelet makes it. */
  function CsiTarget(prefix: string, uid: string, pv: string): (target: string) {
    prefix + "/" + uid + "/" + CSI_DIRECTORY + "/" + pv + "/mount"
  }

  ghost predicate ProperTarget(prefix: string, uid: string, pv: string) {
    '/' !in uid && '/' !in pv && OnlyAt(CsiTarget(prefix, uid, pv), |prefix| + |uid| + 2)
  }

  /** The app pod and the volume of such a target; also when they are empty. Without anything before it, the pod is
      not found. */
  lemma TargetParts(prefix: string, uid: string, pv: string)
    requires ProperTarget(prefix, uid, pv)
    ensures GetPodUid(CsiTarget(prefix, uid, pv)) == if prefix == "" then "" else uid
    ensures GetPVName(CsiTarget(prefix, uid, pv)) == pv
  {
    CsiSplits(prefix, uid, pv);
    AroundIs(CsiTarget(prefix, uid, pv), prefix + "/" + uid + "/", "/" + pv + "/" + "mount");
    PodDirIs(prefix, uid, "/");
    AfterIs("/", pv, "mount");
  }

  lemma CsiSplits(prefix: string, uid: string, pv: string)
    requires ProperTarget(prefix, uid, pv)
    ensures SplitsAt(CsiTarget(prefix, uid, pv), prefix + "/" + uid + "/", "/" + pv + "/" + "mount")
  {
    Regroup(prefix + "/" + uid + "/", CSI_DIRECTORY, pv);
  }

  lemma Regroup(before: string, directory: string, pv: string)
    ensures before + directory + "/" + pv + "/mount" == before + directory + ("/" + pv + "/" + "mount")
  {
  }
}
