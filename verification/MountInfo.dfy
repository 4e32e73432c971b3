/** The mount table of a process (/proc/pid/mountinfo, proc(5)): the parser and the printed form. */
module MountInfo {
  import opened Strings
  import opened Wrappers

  datatype Entry = Entry(
    id: int,
    parentId: int,
    majorMinor: string,
    root: string,
    mountPoint: string,
    mountOptions: seq<string>,
    optionalFields: seq<string>,
    fsType: string,
    source: string,
    superOptions: seq<string>)

  const MIN_FIELDS := 10

  /** The position of the separator "-" that ends the optional fields, or the end of the line. */
  function Separator(fields: seq<string>, i: nat): (k: nat)
    requires i <= |fields|
    ensures i <= k <= |fields|
    ensures forall j :: i <= j < k ==> fields[j] != "-"
    ensures k < |fields| ==> fields[k] == "-"
    decreases |fields| - i
  {
    if i < |fields| && fields[i] != "-" then Separator(fields, i + 1) else i
  }

  function ParseFields(fields: seq<string>): (r: Option<Entry>) {
    if |fields| < MIN_FIELDS then None
    else
      var id := Atoi(fields[0]);
      var parentId := Atoi(fields[1]);
      var k := Separator(fields, 6);
      if id.None? || parentId.None? || |fields| - (k + 1) < 3 then None
      else Some(Entry(id.value, parentId.value, fields[2], fields[3], fields[4], Split(fields[5], ','),
                      fields[6..k], fields[k + 1], fields[k + 2], Split(fields[k + 3], ',')))
  }

  /** The result so far, extended by one more line; an empty line is skipped. */
  function AddLine(infos: Option<seq<Entry>>, line: string): (r: Option<seq<Entry>>) {
    if infos.None? || line == "" then infos
    else match ParseFields(Fields(line))
      case None => None
      case Some(info) => Some(infos.value + [info])
  }

  function ParseLines(lines: seq<string>): (r: Option<seq<Entry>>) {
    if lines == [] then Some([]) else AddLine(ParseLines(lines[..|lines| - 1]), lines[|lines| - 1])
  }

  function Parse(content: string): (r: Option<seq<Entry>>) {
    ParseLines(Split(content, '\n'))
  }

  lemma {:induction false} BadLineFails(lines: seq<string>, i: nat)
    requires i < |lines| && lines[i] != "" && ParseFields(Fields(lines[i])) == None
    ensures ParseLines(lines) == None
  {
    if i < |lines| - 1 {
      BadLineFails(lines[..|lines| - 1], i);
    }
  }

  /** The optional fields end at place `k`, and three more fields follow. */
  predicate EndsAt(fields: seq<string>, k: nat) {
    && 6 <= k && k + 3 < |fields| && fields[k] == "-"
    && forall j :: 6 <= j < k ==> fields[j] != "-"
  }

  /** A line is understood exactly when its first two fields are numbers and three fields follow the first "-" behind
      the sixth field. */
  lemma LineParsesIff(fields: seq<string>)
    ensures ParseFields(fields).Some? <==>
      (exists k :: EndsAt(fields, k)) && Atoi(fields[0]).Some? && Atoi(fields[1]).Some?
  {
    if exists k :: EndsAt(fields, k) {
      var k :| EndsAt(fields, k);
      SeparatorAt(fields, 6, k);
    }
    if ParseFields(fields).Some? {
      assert EndsAt(fields, Separator(fields, 6));
    }
  }

  predicate BadLine(line: string) {
    line != "" && ParseFields(Fields(line)).None?
  }

  /** The table is refused exactly when some line that is not empty is not understood; otherwise it has one entry for
      each of the other lines. */
  lemma {:induction false} ParseLinesIff(lines: seq<string>)
    ensures ParseLines(lines).None? <==> exists l :: l in lines && BadLine(l)
    ensures ParseLines(lines).Some? ==> |ParseLines(lines).value| == |NonEmpty(lines)|
  {
    if lines != [] {
      var front, last := lines[..|lines| - 1], lines[|lines| - 1];
      ParseLinesIff(front);
      assert lines == front + [last];
      if ParseLines(front).None? {
        var l :| l in front && BadLine(l);
        assert l in lines;
      } else if BadLine(last) {
        assert last in lines;
      } else {
        forall l | l in lines ensures !BadLine(l) {
          assert l in front || l == last;
        }
      }
    }
  }

  function NonEmpty(lines: seq<string>): (r: seq<string>) {
    if lines == [] then []
    else NonEmpty(lines[..|lines| - 1]) + if lines[|lines| - 1] == "" then [] else [lines[|lines| - 1]]
  }

  /** `parseMountInfo` on the content of the file; every field access is in range. */
  method ParseMountInfo(content: string) returns (r: Option<seq<Entry>>)
    ensures r == Parse(content)
  {
    var lines := Split(content, '\n');
    var infos: seq<Entry> := [];
    for n := 0 to |lines|
      invariant ParseLines(lines[..n]) == Some(infos)
    {
      assert lines[..n + 1][..n] == lines[..n];
      var line := lines[n];
      if line == "" {
        continue;
      }
      var info := ParseLine(line);
      if info.None? {
        BadLineFails(lines, n);
        return None;
      }
      infos := infos + [info.value];
    }
    assert lines[..|lines|] == lines;
    r := Some(infos);
  }

  method ParseLine(line: string) returns (r: Option<Entry>)
    ensures r == ParseFields(Fields(line))
  {
    var fields := Fields(line);
    if |fields| < MIN_FIELDS {
      return None;
    }
    var id := Atoi(fields[0]);
    if id.None? {
      return None;
    }
    var parentId := Atoi(fields[1]);
    if parentId.None? {
      return None;
    }
    var optionalFields: seq<string> := [];
    var i := 6;
    while i < |fields| && fields[i] != "-"
      invariant 6 <= i <= |fields|
      invariant Separator(fields, i) == Separator(fields, 6)
      invariant optionalFields == fields[6..i]
    {
      optionalFields := optionalFields + [fields[i]];
      i := i + 1;
    }
    i := i + 1;
    if |fields| - i < 3 {
      return None;
    }
    r := Some(Entry(id.value, parentId.value, fields[2], fields[3], fields[4], Split(fields[5], ','),
                    optionalFields, fields[i], fields[i + 1], Split(fields[i + 2], ',')));
  }

  // ---------- printing ----------

  ghost predicate Token(s: string) {
    s != "" && SpaceFree(s)
  }

  ghost predicate Options(options: seq<string>) {
    options != [] && (forall o :: o in options ==> ',' !in o) && Token(Join(options, ","))
  }

  /** An entry whose fields can be told apart in the printed line. */
  ghost predicate Printable(e: Entry) {
    && Token(e.majorMinor) && Token(e.root) && Token(e.mountPoint) && Token(e.fsType) && Token(e.source)
    && Options(e.mountOptions) && Options(e.superOptions)
    && forall o :: o in e.optionalFields ==> Token(o) && o != "-"
  }

  function FieldsOf(e: Entry): (r: seq<string>) {
    [IntToString(e.id), IntToString(e.parentId), e.majorMinor, e.root, e.mountPoint, Join(e.mountOptions, ",")] +
    e.optionalFields + ["-", e.fsType, e.source, Join(e.superOptions, ",")]
  }

  function PrintAll(entries: seq<Entry>): (r: string) {
    if entries == [] then "" else Join(FieldsOf(entries[0]), " ") + "\n" + PrintAll(entries[1..])
  }

  // ---------- round trip ----------

  lemma {:induction false} SeparatorAt(fields: seq<string>, i: nat, k: nat)
    requires i <= k < |fields| && fields[k] == "-" && forall j :: i <= j < k ==> fields[j] != "-"
    ensures Separator(fields, i) == k
    decreases k - i
  {
    if i < k {
      SeparatorAt(fields, i + 1, k);
    }
  }

  predicate AllWords(fields: seq<string>) {
    forall w :: w in fields ==> w != "" && SpaceFree(w)
  }

  lemma IntIsWord(n: int)
    ensures IntToString(n) != "" && SpaceFree(IntToString(n))
  {
    assert forall c :: IsDigit(c) || c == '-' ==> !IsSpace(c);
  }

  lemma FieldsAreWords(e: Entry)
    requires Printable(e)
    ensures AllWords(FieldsOf(e))
  {
    var ids := [IntToString(e.id), IntToString(e.parentId)];
    var names := [e.majorMinor, e.root, e.mountPoint, Join(e.mountOptions, ",")];
    var tail := ["-", e.fsType, e.source, Join(e.superOptions, ",")];
    IntIsWord(e.id);
    IntIsWord(e.parentId);
    assert AllWords(ids) && AllWords(names) && AllWords(tail);
    assert FieldsOf(e) == ids + names + e.optionalFields + tail;
  }

  lemma ParsePrintedFields(e: Entry)
    requires Printable(e)
    ensures ParseFields(FieldsOf(e)) == Some(e)
  {
    var fields := FieldsOf(e);
    var k := 6 + |e.optionalFields|;
    assert forall j :: 6 <= j < k ==> fields[j] == e.optionalFields[j - 6] && fields[j] in e.optionalFields;
    SeparatorAt(fields, 6, k);
    assert fields[6..k] == e.optionalFields;
    AtoiItoa(e.id);
    AtoiItoa(e.parentId);
    SplitJoin(e.mountOptions, ',');
    SplitJoin(e.superOptions, ',');
  }

  lemma ParsePrintedLine(e: Entry)
    requires Printable(e)
    ensures ParseFields(Fields(Join(FieldsOf(e), " "))) == Some(e)
    ensures '\n' !in Join(FieldsOf(e), " ") && Join(FieldsOf(e), " ") != ""
  {
    FieldsAreWords(e);
    FieldsJoin(FieldsOf(e));
    ParsePrintedFields(e);
    assert IsSpace('\n');
    JoinFree(FieldsOf(e), " ", '\n');
  }

  lemma ParseLinesThen(lines: seq<string>, line: string)
    ensures ParseLines(lines + [line]) == AddLine(ParseLines(lines), line)
  {
    assert (lines + [line])[..|lines|] == lines;
  }

  lemma AddLineTo(a: seq<Entry>, b: Option<seq<Entry>>, line: string)
    requires AddLine(b, line).Some?
    ensures b.Some?
    ensures AddLine(Some(a + b.value), line) == Some(a + AddLine(b, line).value)
  {
    if line != "" {
      var info := ParseFields(Fields(line)).value;
      assert (a + b.value) + [info] == a + (b.value + [info]);
    }
  }

  lemma {:induction false} ParseLinesFrom(lines: seq<string>, more: seq<string>)
    requires ParseLines(lines).Some? && ParseLines(more).Some?
    ensures ParseLines(lines + more) == Some(ParseLines(lines).value + ParseLines(more).value)
  {
    if more == [] {
      assert lines + more == lines;
      assert ParseLines(lines).value + [] == ParseLines(lines).value;
    } else {
      var front, last := more[..|more| - 1], more[|more| - 1];
      assert more == front + [last];
      assert lines + more == (lines + front) + [last];
      ParseLinesThen(front, last);
      ParseLinesThen(lines + front, last);
      AddLineTo(ParseLines(lines).value, ParseLines(front), last);
      ParseLinesFrom(lines, front);
    }
  }

  /** Parsing a printed table gives it back, with any number of entries and of optional fields. */
  lemma {:induction false} ParsePrinted(entries: seq<Entry>)
    requires forall i :: 0 <= i < |entries| ==> Printable(entries[i])
    ensures Parse(PrintAll(entries)) == Some(entries)
  {
    if entries == [] {
      assert Split("", '\n') == [""];
      assert [""][..0] == [];
    } else {
      ParsePrinted(entries[1..]);
      ParsePrintedHead(entries[0], PrintAll(entries[1..]), entries[1..]);
      assert entries == [entries[0]] + entries[1..];
    }
  }

  lemma ParsePrintedHead(e: Entry, rest: string, entries: seq<Entry>)
    requires Printable(e) && Parse(rest) == Some(entries)
    ensures Parse(Join(FieldsOf(e), " ") + "\n" + rest) == Some([e] + entries)
  {
    var line := Join(FieldsOf(e), " ");
    ParsePrintedLine(e);
    SplitHead(line, '\n', rest);
    ParseOneLine(line, e);
    ParseLinesFrom([line], Split(rest, '\n'));
  }

  lemma ParseOneLine(line: string, e: Entry)
    requires line != "" && ParseFields(Fields(line)) == Some(e)
    ensures ParseLines([line]) == Some([e])
  {
    var none: seq<Entry> := [];
    assert ParseLines([]) == Some(none);
    assert AddLine(Some(none), line) == Some([e]) by {
      assert none + [e] == [e];
    }
    ParseLinesThen([], line);
    assert [] + [line] == [line];
  }
}
