/** The command of a mount pod: how the builder prints it and how the driver finds the mount path in it again. */
module MountCommand {
  import opened Escape
  import opened GoPath
  import opened Strings
  import opened Wrappers

  const POD_MOUNT_BASE := "/jfs"
  const CE_MOUNT_PATH := "/bin/mount.juicefs"
  const JFS_MOUNT_PATH := "/sbin/mount.juicefs"
  const RO_CONF_PATH := "/etc/juicefs"

  /** The part of the mount setting that the commands depend on. */
  datatype CommandSetting = CommandSetting(
    isCe: bool,
    name: string,
    source: string,
    mountPath: string,
    options: seq<string>,
    hostNetwork: bool,
    encryptRsaKey: string,
    formatCmd: string,
    initConfig: string,
    clientConfPath: string)

  // ---------- printing ----------

  predicate ContainsPrefix(options: seq<string>, prefix: string) {
    exists o :: o in options && HasPrefix(o, prefix)
  }

  /** The options of the mount, with those the builder adds for the edition. */
  function MountOptions(s: CommandSetting): (r: seq<string>) {
    if s.isCe then
      var metrics := if s.hostNetwork then "metrics=0.0.0.0:0" else "metrics=0.0.0.0:9567";
      if ContainsPrefix(s.options, "metrics=") then s.options else s.options + [metrics]
    else
      var rsaKey := if s.encryptRsaKey != "" then ["rsa-key=/root/.rsa/rsa-key.pem"] else [];
      ["foreground", "no-update"] + rsaKey + s.options
  }

  function MountArgs(s: CommandSetting): (r: seq<string>) {
    [ if s.isCe then CE_MOUNT_PATH else JFS_MOUNT_PATH,
      if s.isCe then "${metaurl}" else EscapeBashStr(s.source),
      EscapeBashStr(s.mountPath),
      "-o",
      EscapeBashStr(Join(MountOptions(s), ",")) ]
  }

  function GenMountCommand(s: CommandSetting): (r: string) {
    QuoteForShell(Join(MountArgs(s), " "))
  }

  function GenInitCommand(s: CommandSetting): (r: string) {
    var formatCmd := s.formatCmd +
      if s.encryptRsaKey != "" && s.isCe then " --encrypt-rsa-key=/root/.rsa/rsa-key.pem" else "";
    if s.initConfig == "" then formatCmd
    else Join(["cp", PathJoin(RO_CONF_PATH, s.name + ".conf"), s.clientConfPath], " ") + "\n" + formatCmd
  }

  /** The command that `NewMountPod` gives the container. */
  function PodCommand(s: CommandSetting): (r: seq<string>) {
    var initCmd := GenInitCommand(s);
    ["sh", "-c", if initCmd == "" then GenMountCommand(s) else initCmd + "\n" + GenMountCommand(s)]
  }

  // ---------- parsing ----------

  /** The mount path and the component after its base. */
  function ParseMntPath(cmd: string): (r: Option<(string, string)>) {
    var cmds := Split(cmd, '\n');
    var args := Fields(cmds[|cmds| - 1]);
    if |args| < 3 || !HasPrefix(args[2], POD_MOUNT_BASE) then None
    else
      var parts := Split(args[2], '/');
      if |parts| < 3 then None else Some((args[2], parts[2]))
  }

  /** `GetMountPathOfPod` on the commands of the pod's containers. */
  function GetMountPathOfPod(commands: seq<seq<string>>): (r: Option<(string, string)>) {
    if commands == [] || |commands[0]| < 3 then None else ParseMntPath(commands[0][2])
  }

  // ---------- characters that survive quoting ----------

  lemma {:induction false} ReplaceChars(s: string, c: char, replacement: string)
    ensures forall x :: x in ReplaceAll(s, c, replacement) ==> x in s || x in replacement
  {
    if s != "" {
      ReplaceChars(s[1..], c, replacement);
      assert forall x :: x in s[1..] ==> x in s;
    }
  }

  lemma EscapeChars(s: string)
    ensures forall x :: x in EscapeBashStr(s) ==> x in s || x == '$' || x == '\'' || x == '\\'
    ensures s != "" ==> EscapeBashStr(s) != ""
  {
    ReplaceChars(s, '\\', "\\\\");
    ReplaceChars(ReplaceAll(s, '\\', "\\\\"), '\'', "\\'");
  }

  lemma QuoteChars(s: string)
    ensures forall x :: x in QuoteForShell(s) ==> x in s || x == '\\' || IsParen(x)
    ensures s != "" ==> QuoteForShell(s) != ""
  {
    ReplaceChars(s, '(', "\\(");
    ReplaceChars(ReplaceAll(s, '(', "\\("), ')', "\\)");
  }

  /** A word as it stands in the printed command line. */
  function Printed(word: string): (r: string) {
    QuoteForShell(EscapeBashStr(word))
  }

  lemma PrintedWord(word: string)
    requires word != "" && SpaceFree(word)
    ensures Printed(word) != "" && SpaceFree(Printed(word))
  {
    EscapeChars(word);
    QuoteChars(EscapeBashStr(word));
  }

  /** The first argument becomes the first field. */
  lemma FirstField(args: seq<string>)
    requires |args| > 1 && QuoteForShell(args[0]) != "" && SpaceFree(QuoteForShell(args[0]))
    ensures Fields(QuoteForShell(Join(args, " "))) ==
            [QuoteForShell(args[0])] + Fields(QuoteForShell(Join(args[1..], " ")))
  {
    QuoteSpace(args[0], Join(args[1..], " "));
    FieldsHead(QuoteForShell(args[0]), QuoteForShell(Join(args[1..], " ")));
  }

  lemma QuoteSpace(a: string, b: string)
    ensures QuoteForShell(a + " " + b) == QuoteForShell(a) + " " + QuoteForShell(b)
  {
    QuoteConcat(a + " ", b);
    QuoteConcat(a, " ");
    QuoteNone(" ");
  }

  // ---------- what the command says ----------

  /** These are the user's options, all of them and in order, with others before and behind. */
  ghost predicate Surrounds(options: seq<string>, before: seq<string>, user: seq<string>, behind: seq<string>) {
    options == before + user + behind
  }

  /** To the options of the user, the community edition adds a metrics address exactly when there is none, and the
      enterprise edition puts three others in front. */
  lemma OptionsAre(s: CommandSetting)
    ensures s.isCe && (exists o :: o in s.options && HasPrefix(o, "metrics=")) ==> MountOptions(s) == s.options
    ensures s.isCe && (forall o :: o in s.options ==> !HasPrefix(o, "metrics=")) ==>
      Surrounds(MountOptions(s), [], s.options, ["metrics=0.0.0.0:" + if s.hostNetwork then "0" else "9567"])
    ensures !s.isCe ==> Surrounds(MountOptions(s), ["foreground", "no-update"] +
      (if s.encryptRsaKey != "" then ["rsa-key=/root/.rsa/rsa-key.pem"] else []), s.options, [])
  {
    if s.isCe {
      assert "metrics=0.0.0.0:" + "0" == "metrics=0.0.0.0:0";
      assert "metrics=0.0.0.0:" + "9567" == "metrics=0.0.0.0:9567";
      assert [] + s.options == s.options;
    } else {
      assert MountOptions(s) + [] == MountOptions(s);
    }
  }

  /** The printed command line, word by word: the client of the edition, the source, the mount path and the options. */
  lemma CommandIs(s: CommandSetting)
    ensures GenMountCommand(s) == CommandStart(s) + " " + Printed(s.mountPath) + " -o " +
      Printed(Join(MountOptions(s), ","))
  {
    var args := MountArgs(s);
    assert args == [args[0], args[1], args[2], args[3], args[4]];
    FiveWords(args[0], args[1], args[2], args[3], args[4]);
    ConstantArgs(s);
    QuoteNone(args[0]);
    QuoteNone("-o");
    if s.isCe {
      QuoteNone(args[1]);
    }
    OptionFlag(CommandStart(s) + " " + Printed(s.mountPath), Printed(Join(MountOptions(s), ",")));
  }

  lemma OptionFlag(a: string, b: string)
    ensures a + " " + "-o" + " " + b == a + " -o " + b
  {
  }

  /** The client of the edition and the source. */
  function CommandStart(s: CommandSetting): (r: string) {
    if s.isCe then "/bin/mount.juicefs" + " " + "${metaurl}" else "/sbin/mount.juicefs" + " " + Printed(s.source)
  }

  lemma FiveWords(a: string, b: string, c: string, d: string, e: string)
    ensures QuoteForShell(Join([a, b, c, d, e], " ")) == QuoteForShell(a) + " " + QuoteForShell(b) + " " +
      QuoteForShell(c) + " " + QuoteForShell(d) + " " + QuoteForShell(e)
  {
    JoinFive(a, b, c, d, e);
    QuoteSpace(a + " " + b + " " + c + " " + d, e);
    QuoteSpace(a + " " + b + " " + c, d);
    QuoteSpace(a + " " + b, c);
    QuoteSpace(a, b);
  }

  lemma JoinFive(a: string, b: string, c: string, d: string, e: string)
    ensures Join([a, b, c, d, e], " ") == a + " " + b + " " + c + " " + d + " " + e
  {
    JoinMore([a, b, c, d], " ", e);
    JoinMore([a, b, c], " ", d);
    JoinMore([a, b], " ", c);
    JoinMore([a], " ", b);
    assert [a] + [b] == [a, b] && [a, b] + [c] == [a, b, c] && [a, b, c] + [d] == [a, b, c, d];
    assert [a, b, c, d] + [e] == [a, b, c, d, e];
  }

  predicate CommaFree(options: seq<string>) {
    forall o :: o in options ==> ',' !in o
  }

  predicate ParenFree(options: seq<string>) {
    forall o :: o in options ==> '(' !in o && ')' !in o
  }

  /** The last word of the command stands, unless it has parentheses, for a text that splits, unless they have commas,
      into exactly the options of the mount. */
  lemma OptionsReachCommand(s: CommandSetting)
    ensures ParenFree(s.options) ==>
      StandsFor(Printed(Join(MountOptions(s), ",")), Join(MountOptions(s), ","))
    ensures CommaFree(s.options) ==> Split(Join(MountOptions(s), ","), ',') == MountOptions(s)
  {
    AddedOptions(s);
    AddedPlain();
    if ParenFree(s.options) {
      JoinFree(MountOptions(s), ",", '(');
      JoinFree(MountOptions(s), ",", ')');
      PrintedStands(Join(MountOptions(s), ","));
    }
    if CommaFree(s.options) {
      SplitJoin(MountOptions(s), ',');
    }
  }

  /** What the builder adds to the options. */
  const ADDED := ["metrics=0.0.0.0:0", "metrics=0.0.0.0:9567", "foreground", "no-update",
                  "rsa-key=/root/.rsa/rsa-key.pem"]

  lemma AddedOptions(s: CommandSetting)
    ensures forall o :: o in MountOptions(s) ==> o in s.options || o in ADDED
  {
    assert ADDED[0] in ADDED && ADDED[1] in ADDED && ADDED[2] in ADDED && ADDED[3] in ADDED && ADDED[4] in ADDED;
  }

  predicate PlainOption(option: string) {
    forall c :: c in option ==> c != ',' && c != '(' && c != ')' && c != '\n'
  }

  lemma AddedPlain()
    ensures forall o :: o in ADDED ==> PlainOption(o)
  {
    HostMetricsPlain();
    MetricsPlain();
    RsaPlain();
    assert PlainOption("foreground") && PlainOption("no-update");
  }

  lemma HostMetricsPlain()
    ensures PlainOption("metrics=0.0.0.0:0")
  {
  }

  lemma MetricsPlain()
    ensures PlainOption("metrics=0.0.0.0:9567")
  {
  }

  lemma RsaPlain()
    ensures PlainOption("rsa-key=/root/.rsa/rsa-key.pem")
  {
  }

  /** Before it mounts, the pod runs all lines of the init command; the mount command is one more line. */
  lemma PodCommandLines(s: CommandSetting)
    requires '\n' !in GenMountCommand(s)
    ensures PodCommand(s)[..2] == ["sh", "-c"]
    ensures Split(PodCommand(s)[2], '\n') ==
      (if GenInitCommand(s) == "" then [] else Split(GenInitCommand(s), '\n')) + [GenMountCommand(s)]
  {
    SplitNoSep(GenMountCommand(s), '\n');
    SplitConcat(GenInitCommand(s), '\n', GenMountCommand(s));
  }

  // ---------- round trip ----------

  /** Tokens without white space on one line; the mount path is one component below its base. */
  ghost predicate Printable(s: CommandSetting, component: string) {
    && s.mountPath == POD_MOUNT_BASE + "/" + component
    && SpaceFree(component) && '/' !in component
    && (s.isCe || (s.source != "" && SpaceFree(s.source)))
    && forall o :: o in s.options ==> '\n' !in o
  }

  lemma OptionsOneLine(s: CommandSetting)
    requires forall o :: o in s.options ==> '\n' !in o
    ensures '\n' !in EscapeBashStr(Join(MountOptions(s), ","))
  {
    AddedOptions(s);
    AddedPlain();
    JoinFree(MountOptions(s), ",", '\n');
    EscapeChars(Join(MountOptions(s), ","));
  }

  lemma WordOneLine(word: string)
    requires SpaceFree(word)
    ensures '\n' !in EscapeBashStr(word)
  {
    assert IsSpace('\n');
    EscapeChars(word);
  }

  lemma ArgsOneLine(s: CommandSetting)
    requires SpaceFree(s.mountPath) && (s.isCe || SpaceFree(s.source))
    requires forall o :: o in s.options ==> '\n' !in o
    ensures forall a :: a in MountArgs(s) ==> '\n' !in a
  {
    OptionsOneLine(s);
    WordOneLine(s.mountPath);
    if !s.isCe {
      WordOneLine(s.source);
    }
  }

  lemma OneLine(s: CommandSetting, component: string)
    requires Printable(s, component)
    ensures '\n' !in GenMountCommand(s)
  {
    MountPathSpaceFree(s, component);
    ArgsOneLine(s);
    JoinFree(MountArgs(s), " ", '\n');
    QuoteChars(Join(MountArgs(s), " "));
  }

  lemma MountPathSpaceFree(s: CommandSetting, component: string)
    requires Printable(s, component)
    ensures SpaceFree(s.mountPath) && s.mountPath != ""
  {
    assert forall c :: c in s.mountPath ==> c in POD_MOUNT_BASE || c == '/' || c in component;
  }

  ghost predicate PlainField(word: string) {
    QuoteForShell(word) != "" && SpaceFree(QuoteForShell(word))
  }

  lemma ThirdField(args: seq<string>)
    requires |args| > 3 && PlainField(args[0]) && PlainField(args[1]) && PlainField(args[2])
    ensures var fields := Fields(QuoteForShell(Join(args, " "))); |fields| >= 3 && fields[2] == QuoteForShell(args[2])
  {
    assert args[1..][1..] == args[2..];
    FirstField(args);
    FirstField(args[1..]);
    FirstField(args[2..]);
  }

  predicate PlainWord(word: string) {
    word != "" && SpaceFree(word) && '(' !in word && ')' !in word
  }

  lemma PlainWordIsField(word: string)
    requires PlainWord(word)
    ensures PlainField(word)
  {
    QuoteNone(word);
  }

  lemma CePathPlain()
    ensures PlainWord(CE_MOUNT_PATH)
  {
  }

  lemma JfsPathPlain()
    ensures PlainWord(JFS_MOUNT_PATH)
  {
  }

  lemma MetaUrlPlain()
    ensures PlainWord("${metaurl}")
  {
  }

  lemma ConstantArgs(s: CommandSetting)
    ensures PlainWord(MountArgs(s)[0])
    ensures s.isCe ==> PlainWord(MountArgs(s)[1])
  {
    CePathPlain();
    JfsPathPlain();
    MetaUrlPlain();
  }

  lemma SecondArg(s: CommandSetting)
    requires s.isCe || (s.source != "" && SpaceFree(s.source))
    ensures PlainField(MountArgs(s)[1])
  {
    if s.isCe {
      ConstantArgs(s);
      PlainWordIsField(MountArgs(s)[1]);
    } else {
      PrintedWord(s.source);
    }
  }

  lemma PathField(s: CommandSetting, component: string)
    requires Printable(s, component)
    ensures var fields := Fields(GenMountCommand(s)); |fields| >= 3 && fields[2] == Printed(s.mountPath)
  {
    ConstantArgs(s);
    PlainWordIsField(MountArgs(s)[0]);
    SecondArg(s);
    MountPathSpaceFree(s, component);
    PrintedWord(s.mountPath);
    ThirdField(MountArgs(s));
  }

  /** What the driver finds in the pod it built: the printed mount path, whatever the init command is. */
  lemma ParsePrinted(s: CommandSetting, component: string, others: seq<seq<string>>)
    requires Printable(s, component)
    ensures var found := GetMountPathOfPod([PodCommand(s)] + others);
      if HasSpecial(s.mountPath) then found == None else found == Some((s.mountPath, component))
  {
    OneLine(s, component);
    PathField(s, component);
    LastLine(GenInitCommand(s), GenMountCommand(s));
    FoundPath(PodCommand(s)[2], GenMountCommand(s), Printed(s.mountPath));
    assert ([PodCommand(s)] + others)[0] == PodCommand(s);
    if HasSpecial(s.mountPath) {
      QuotedStart(s.mountPath);
    } else {
      QuoteNoSpecial(s.mountPath);
      PathParts(component);
    }
  }

  /** The parser looks at the third field of the last line only. */
  lemma FoundPath(cmd: string, line: string, path: string)
    requires Split(cmd, '\n')[|Split(cmd, '\n')| - 1] == line
    requires |Fields(line)| >= 3 && Fields(line)[2] == path
    ensures "$'" <= path ==> ParseMntPath(cmd) == None
    ensures forall component :: Split(path, '/') == ["", "jfs", component] && POD_MOUNT_BASE <= path ==>
      ParseMntPath(cmd) == Some((path, component))
  {
  }

  /** The mount command is the last line, with or without an init command before it. */
  lemma LastLine(initCmd: string, mountCmd: string)
    requires '\n' !in mountCmd
    ensures var cmds := Split(if initCmd == "" then mountCmd else initCmd + "\n" + mountCmd, '\n');
      cmds[|cmds| - 1] == mountCmd
  {
    if initCmd == "" {
      SplitNoSep(mountCmd, '\n');
    } else {
      SplitLast(initCmd, '\n', mountCmd);
    }
  }

  lemma QuotedStart(s: string)
    requires HasSpecial(s)
    ensures "$'" <= Printed(s)
  {
    var quoted := ReplaceAll(ReplaceAll(s, '\\', "\\\\"), '\'', "\\'") + "'";
    assert EscapeBashStr(s) == "$'" + quoted;
    QuoteConcat("$'", quoted);
    QuoteNone("$'");
  }

  lemma QuoteNoSpecial(s: string)
    requires !HasSpecial(s)
    ensures Printed(s) == s
  {
    assert SPECIALS[6] == '(' && SPECIALS[7] == ')';
    QuoteNone(s);
  }

  lemma PathParts(component: string)
    requires '/' !in component
    ensures Split(POD_MOUNT_BASE + "/" + component, '/') == ["", "jfs", component]
  {
    var path := POD_MOUNT_BASE + "/" + component;
    assert path == "" + ['/'] + ("jfs" + ['/'] + component);
    SplitHead("", '/', "jfs" + ['/'] + component);
    SplitHead("jfs", '/', component);
    SplitNoSep(component, '/');
  }

  /** Printer and parser undo each other exactly when the mount path needs no escaping. */
  lemma MountPathRoundTripIff(s: CommandSetting, component: string, others: seq<seq<string>>)
    requires Printable(s, component)
    ensures GetMountPathOfPod([PodCommand(s)] + others) == Some((s.mountPath, component)) <==> !HasSpecial(s.mountPath)
  {
    ParsePrinted(s, component, others);
  }

  /** For a mount path like "/jfs/$x", the driver does not find the mount path of the pod it built. */
  lemma DollarPathIsLost(s: CommandSetting, rest: string, others: seq<seq<string>>)
    requires Printable(s, "$" + rest)
    ensures GetMountPathOfPod([PodCommand(s)] + others) == None
  {
    var n := |POD_MOUNT_BASE| + 1;
    assert s.mountPath[n] == '$' && s.mountPath[n] in s.mountPath && '$' in SPECIALS;
    ParsePrinted(s, "$" + rest, others);
  }
}
