/** Sub-path volumes: the directory the quota is set on and the directory that is mounted. */
module SubPath {
  import opened GoPath
  import opened Strings
  import opened Wrappers

  /** The value of an option of the form `subdir=value` with a single "=". */
  function SubdirValue(option: string): (r: Option<string>) {
    var pair := Split(option, '=');
    if |pair| == 2 && pair[0] == "subdir" then Some(pair[1]) else None
  }

  /** The last such value. */
  function LastSubdir(options: seq<string>): (r: Option<string>) {
    if options == [] then None
    else if SubdirValue(options[|options| - 1]).Some? then SubdirValue(options[|options| - 1])
    else LastSubdir(options[..|options| - 1])
  }

  function QuotaPath(options: seq<string>, subPath: string): (r: string) {
    PathJoin(match LastSubdir(options) case None => "" case Some(v) => PathJoin("/", v), subPath)
  }

  predicate IsSubdir(option: string) {
    HasPrefix(option, "subdir=")
  }

  function OtherOptions(options: seq<string>): (r: seq<string>) {
    if options == [] then []
    else
      var last := options[|options| - 1];
      OtherOptions(options[..|options| - 1]) + (if IsSubdir(last) then [] else [last])
  }

  function Subdir(options: seq<string>, subPath: string): (r: string) {
    match LastSubdir(options) case None => subPath case Some(v) => PathJoin(v, subPath)
  }

  lemma SubdirOptions(option: string)
    ensures SubdirValue(option).Some? ==> IsSubdir(option)
    ensures IsSubdir(option) && |Split(option, '=')| == 2 ==> Split(option, '=')[0] == "subdir"
  {
    if SubdirValue(option).Some? {
      SplitParts(option, '=');
      assert option == "subdir" + "=" + Split(option, '=')[1];
    }
    if IsSubdir(option) {
      assert option == "subdir" + ['='] + option[7..];
      SplitHead("subdir", '=', option[7..]);
    }
  }

  /** The part of the mount setting that sub-paths touch. */
  class JfsSetting {
    var options: seq<string>
    var subPath: string

    constructor (options: seq<string>, subPath: string)
      ensures this.options == options && this.subPath == subPath
    {
      this.options, this.subPath := options, subPath;
    }

    method GetQuotaPath() returns (quotaPath: string)
      ensures quotaPath == QuotaPath(options, subPath)
    {
      var subdir := "";
      for i := 0 to |options|
        invariant subdir == match LastSubdir(options[..i]) case None => "" case Some(v) => PathJoin("/", v)
      {
        assert options[..i + 1][..i] == options[..i];
        var pair := Split(options[i], '=');
        if |pair| != 2 {
          continue;
        }
        if pair[0] == "subdir" {
          subdir := PathJoin("/", pair[1]);
        }
      }
      assert options[..|options|] == options;
      quotaPath := PathJoin(subdir, subPath);
    }

    method OverwriteSubdirWithSubPath()
      modifies this`options
      ensures subPath == "" ==> options == old(options)
      ensures subPath != "" ==> options == OtherOptions(old(options)) + ["subdir=" + Subdir(old(options), subPath)]
    {
      if subPath != "" {
        var kept: seq<string> := [];
        var subdir := subPath;
        for i := 0 to |options|
          invariant options == old(options)
          invariant kept == OtherOptions(options[..i])
          invariant subdir == Subdir(options[..i], subPath)
        {
          assert options[..i + 1][..i] == options[..i];
          var option := options[i];
          SubdirOptions(option);
          if HasPrefix(option, "subdir=") {
            var s := Split(option, '=');
            if |s| != 2 {
              continue;
            }
            if s[0] == "subdir" {
              subdir := PathJoin(s[1], subPath);
            }
            continue;
          }
          kept := kept + [option];
        }
        assert options[..|options|] == options;
        options := kept + ["subdir=" + subdir];
      }
    }
  }

  lemma {:induction false} NoSubdirLeft(options: seq<string>)
    ensures forall o :: o in OtherOptions(options) ==> o in options && !IsSubdir(o)
  {
    if options != [] {
      NoSubdirLeft(options[..|options| - 1]);
    }
  }

  /** The options that are no `subdir=` options are all kept, in order. */
  lemma {:induction false} OthersConcat(a: seq<string>, b: seq<string>)
    ensures OtherOptions(a + b) == OtherOptions(a) + OtherOptions(b)
    ensures (forall o :: o in b ==> !IsSubdir(o)) ==> OtherOptions(b) == b
    ensures (forall o :: o in b ==> IsSubdir(o)) ==> OtherOptions(b) == []
  {
    if b == [] {
      assert a + b == a;
    } else {
      var front, last := b[..|b| - 1], b[|b| - 1];
      assert (a + b)[..|a + b| - 1] == a + front;
      assert b == front + [last];
      OthersConcat(a, front);
    }
  }

  /** The elements of the value that decides. */
  function DecidingElements(options: seq<string>): (r: seq<string>) {
    match LastSubdir(options) case None => [] case Some(v) => Elements(v)
  }

  /** For a non-empty sub-path exactly one `subdir=` option is left, the last one, and rooted at "/" it names the
      directory that `getQuotaPath` computed from the original options: the one reached by walking the deciding value
      and then the sub-path from the root. The other options keep their order. */
  lemma MountAndQuotaAgree(options: seq<string>, subPath: string)
    requires subPath != ""
    ensures var written := OtherOptions(options) + ["subdir=" + Subdir(options, subPath)];
      && (forall i :: 0 <= i < |written| ==> (IsSubdir(written[i]) <==> i == |written| - 1))
      && Rooted(TrimPrefix(written[|written| - 1], "subdir=")) == Rooted(QuotaPath(options, subPath))
      && Rooted(QuotaPath(options, subPath)) ==
           "/" + Join(Reduce(DecidingElements(options) + Elements(subPath), true), "/")
  {
    NoSubdirLeft(options);
    SameDirectory(options, subPath);
    assert TrimPrefix("subdir=" + Subdir(options, subPath), "subdir=") == Subdir(options, subPath);
  }

  lemma SameDirectory(options: seq<string>, subPath: string)
    requires subPath != ""
    ensures Rooted(Subdir(options, subPath)) == Rooted(QuotaPath(options, subPath))
    ensures Rooted(QuotaPath(options, subPath)) ==
      "/" + Join(Reduce(DecidingElements(options) + Elements(subPath), true), "/")
  {
    RootedIs(Subdir(options, subPath));
    RootedIs(QuotaPath(options, subPath));
    match LastSubdir(options)
    case None =>
      RootedJoin("", subPath);
      assert Elements("") == [];
      assert [] + Elements(subPath) == Elements(subPath);
    case Some(x) =>
      RootedJoin(x, subPath);
      RootedJoin(PathJoin("/", x), subPath);
      ElementsAre(x);
      ElementsOfRooted(x);
      ReducePrefix(Elements(x), Elements(subPath), true);
  }

  /** The directory lies in that of the deciding value, at the place that a sub-path without ".." names. */
  lemma SubPathComesLast(options: seq<string>, subPath: string)
    requires subPath != "" && ".." !in Elements(subPath)
    ensures Rooted(QuotaPath(options, subPath)) ==
      "/" + Join(Reduce(DecidingElements(options), true) + Elements(subPath), "/")
  {
    SameDirectory(options, subPath);
    WalksOn(DecidingElements(options), Elements(subPath));
  }

  lemma {:induction false} WalksOn(a: seq<string>, b: seq<string>)
    requires ".." !in b
    ensures Reduce(a + b, true) == Reduce(a, true) + b
  {
    if b == [] {
      assert a + b == a;
    } else {
      var front, last := b[..|b| - 1], b[|b| - 1];
      WalksOn(a, front);
      assert a + b == (a + front) + [last];
      ReduceThen(a + front, last, true);
    }
  }

  lemma ElementsOfRooted(p: string)
    ensures Elements(PathJoin("/", p)) == Reduce(Elements(p), true)
    ensures PathJoin("/", p) != ""
  {
    ElementsClean("/" + "/" + p);
    assert "/" + "/" + p == "/" + ("/" + p);
    ElementsRooted("/" + p);
    ElementsRooted(p);
  }

  // ---------- which subdir option wins ----------

  function ValueIn(option: string): (value: string) {
    TrimPrefix(option, "subdir=")
  }

  /** The last option of the form `subdir=...`, whatever follows. */
  predicate IsLast(options: seq<string>, i: nat) {
    i < |options| && IsSubdir(options[i]) && forall j :: i < j < |options| ==> !IsSubdir(options[j])
  }

  /** An option has a value exactly when it is a subdir option whose value has no further "=". */
  lemma SubdirValueIs(option: string)
    ensures SubdirValue(option) == if IsSubdir(option) && '=' !in ValueIn(option) then Some(ValueIn(option)) else None
  {
    SubdirOptions(option);
    if IsSubdir(option) {
      var value := option[7..];
      assert option == "subdir" + ['='] + value;
      SplitHead("subdir", '=', value);
      if '=' in value {
        SplitParts(value, '=');
        if |Split(value, '=')| == 1 {
          assert false;
        }
      } else {
        SplitNoSep(value, '=');
      }
    }
  }

  lemma {:induction false} LastSubdirIs(options: seq<string>, i: nat)
    requires IsLast(options, i)
    ensures LastSubdir(options) ==
      if '=' in ValueIn(options[i]) then LastSubdir(options[..i]) else Some(ValueIn(options[i]))
  {
    var n := |options| - 1;
    SubdirValueIs(options[n]);
    if i < n {
      LastSubdirIs(options[..n], i);
      assert options[..n][..i] == options[..i];
    }
  }

  /** The winner: some subdir option has this value, without a further "=", and each later one has a further "=". */
  predicate Wins(options: seq<string>, i: nat, value: string) {
    && i < |options| && options[i] == "subdir=" + value && '=' !in value
    && forall j :: i < j < |options| && IsSubdir(options[j]) ==> '=' in ValueIn(options[j])
  }

  lemma {:induction false} WinnerIff(options: seq<string>, value: string)
    ensures LastSubdir(options) == Some(value) <==> exists i :: Wins(options, i, value)
  {
    if options != [] {
      var n := |options| - 1;
      var front, last := options[..n], options[n];
      SubdirValueIs(last);
      WinnerIff(front, value);
      if SubdirValue(last).Some? {
        assert last == "subdir=" + ValueIn(last);
        if exists i :: Wins(options, i, value) {
          var i :| Wins(options, i, value);
          assert ("subdir=" + value)[7..] == value;
        } else {
          assert !Wins(options, n, value);
        }
      } else {
        forall i ensures Wins(options, i, value) <==> Wins(front, i, value) {
          if i == n {
            assert ("subdir=" + value)[7..] == value;
          }
        }
      }
    }
  }

  /** The last subdir option decides, for the mount and for the quota, exactly when its value has no further "=";
      otherwise the options before it decide in the same way, and in the end the sub-path alone. */
  lemma LastSubdirDecidesIff(options: seq<string>, i: nat, subPath: string)
    requires IsLast(options, i)
    ensures LastSubdir(options) == Some(ValueIn(options[i])) <==> '=' !in ValueIn(options[i])
    ensures '=' in ValueIn(options[i]) ==>
      && Subdir(options, subPath) == Subdir(options[..i], subPath)
      && QuotaPath(options, subPath) == QuotaPath(options[..i], subPath)
  {
    LastSubdirIs(options, i);
    if LastSubdir(options) == Some(ValueIn(options[i])) {
      WinnerIff(options, ValueIn(options[i]));
    }
  }

  /** When every subdir option has a value with a further "=", all of them are dropped, and mount and quota name the
      sub-path alone. */
  lemma SubdirWithEqualsIsLost(options: seq<string>, subPath: string)
    requires forall o :: o in options && IsSubdir(o) ==> '=' in ValueIn(o)
    requires subPath != ""
    ensures LastSubdir(options) == None && Subdir(options, subPath) == subPath
    ensures Rooted(QuotaPath(options, subPath)) == Rooted(subPath)
  {
    forall i: nat, value ensures !Wins(options, i, value) {
      if i < |options| && options[i] == "subdir=" + value {
        assert options[i] in options && ("subdir=" + value)[7..] == value;
      }
    }
    if LastSubdir(options).Some? {
      WinnerIff(options, LastSubdir(options).value);
    }
    SameDirectory(options, subPath);
  }
}
