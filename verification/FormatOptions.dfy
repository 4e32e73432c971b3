/** Format options: the comma-separated text of a secret, and the command-line options made from it. */
module FormatOptions {
  import opened Escape
  import opened Strings
  import opened Wrappers

  datatype Pair = Pair(key: string, value: string)

  /** `strings.SplitN(s, "=", 2)`: the text before the first "=", and what follows it if there is one. */
  function CutEquals(s: string): (r: (string, Option<string>)) {
    if s == "" then ("", None)
    else if s[0] == '=' then ("", Some(s[1..]))
    else
      var rest := CutEquals(s[1..]);
      ([s[0]] + rest.0, rest.1)
  }

  /** What one comma-separated piece stands for. */
  datatype Piece = Invalid | Ignored | Option(pair: Pair)

  function PieceOf(option: string): (r: Piece) {
    var cut := CutEquals(TrimSpace(option));
    var key := TrimSpace(cut.0);
    if cut.1 == Some("") then Invalid
    else if key == "" then Ignored
    else Option(Pair(key, if cut.1.None? then "" else TrimSpace(cut.1.value)))
  }

  function ParsePieces(options: seq<string>): (r: Wrappers.Option<seq<Pair>>) {
    if options == [] then Some([])
    else match ParsePieces(options[..|options| - 1])
      case None => None
      case Some(pairs) =>
        match PieceOf(options[|options| - 1])
        case Invalid => None
        case Ignored => Some(pairs)
        case Option(pair) => Some(pairs + [pair])
  }

  function Parse(text: string): (r: Wrappers.Option<seq<Pair>>) {
    ParsePieces(Split(text, ','))
  }

  lemma PiecesNext(options: seq<string>, i: nat, parsed: seq<Pair>)
    requires i < |options| && ParsePieces(options[..i]) == Some(parsed)
    ensures PieceOf(options[i]).Ignored? ==> ParsePieces(options[..i + 1]) == Some(parsed)
    ensures PieceOf(options[i]).Option? ==> ParsePieces(options[..i + 1]) == Some(parsed + [PieceOf(options[i]).pair])
  {
    assert options[..i + 1][..i] == options[..i];
  }

  method ParseFormatOptions(text: string) returns (r: Wrappers.Option<seq<Pair>>)
    ensures r == Parse(text)
  {
    var options := Split(text, ',');
    var parsed: seq<Pair> := [];
    for i := 0 to |options|
      invariant ParsePieces(options[..i]) == Some(parsed)
    {
      PiecesNext(options, i, parsed);
      var cut := CutEquals(TrimSpace(options[i]));
      if cut.1 == Some("") {
        InvalidPieceFails(options, i);
        return None;
      }
      var key := TrimSpace(cut.0);
      if key == "" {
        continue;
      }
      var value := if cut.1.None? then "" else TrimSpace(cut.1.value);
      parsed := parsed + [Pair(key, value)];
    }
    assert options[..|options|] == options;
    r := Some(parsed);
  }

  // ---------- when parsing fails ----------

  /** A key with "=" and nothing behind it. */
  ghost predicate EmptyValue(option: string) {
    exists key :: '=' !in key && TrimSpace(option) == key + "="
  }

  lemma {:induction false} CutParts(s: string)
    ensures '=' !in CutEquals(s).0
    ensures s == CutEquals(s).0 + if CutEquals(s).1.None? then "" else "=" + CutEquals(s).1.value
  {
    if s != "" && s[0] != '=' {
      CutParts(s[1..]);
    }
  }

  lemma {:induction false} CutAt(key: string, value: string)
    requires '=' !in key
    ensures CutEquals(key + "=" + value) == (key, Some(value))
    ensures CutEquals(key) == (key, None)
  {
    if key == "" {
      assert (key + "=" + value)[1..] == value;
    } else {
      assert (key + "=" + value)[1..] == key[1..] + "=" + value;
      CutAt(key[1..], value);
      assert key == [key[0]] + key[1..];
    }
  }

  lemma InvalidIff(option: string)
    ensures PieceOf(option).Invalid? <==> EmptyValue(option)
  {
    var s := TrimSpace(option);
    CutParts(s);
    if EmptyValue(option) {
      var key :| '=' !in key && s == key + "=";
      CutAt(key, "");
      assert key + "=" + "" == s;
    }
    if CutEquals(s).1 == Some("") {
      assert s == CutEquals(s).0 + "=";
    }
  }

  lemma {:induction false} InvalidPieceFails(options: seq<string>, i: nat)
    requires i < |options| && PieceOf(options[i]).Invalid?
    ensures ParsePieces(options) == None
  {
    if i < |options| - 1 {
      InvalidPieceFails(options[..|options| - 1], i);
    }
  }

  lemma {:induction false} ParsePiecesFailsIff(options: seq<string>)
    ensures ParsePieces(options) == None <==> exists o :: o in options && PieceOf(o).Invalid?
  {
    if options != [] {
      var front := options[..|options| - 1];
      ParsePiecesFailsIff(front);
      assert options == front + [options[|options| - 1]];
    }
  }

  /** The text is refused exactly when some piece gives a key an empty value. */
  lemma ParseFailsIff(text: string)
    ensures Parse(text) == None <==> exists o :: o in Split(text, ',') && EmptyValue(o)
  {
    ParsePiecesFailsIff(Split(text, ','));
    forall o ensures PieceOf(o).Invalid? <==> EmptyValue(o) {
      InvalidIff(o);
    }
  }

  // ---------- round trip ----------

  ghost predicate Clean(p: Pair) {
    && p.key != "" && Trimmed(p.key) && ',' !in p.key && '=' !in p.key
    && Trimmed(p.value) && ',' !in p.value
  }

  function Write(p: Pair): (r: string) {
    if p.value == "" then p.key else p.key + "=" + p.value
  }

  function WriteAll(pairs: seq<Pair>): (r: seq<string>)
    ensures |r| == |pairs|
  {
    if pairs == [] then [] else WriteAll(pairs[..|pairs| - 1]) + [Write(pairs[|pairs| - 1])]
  }

  lemma WrittenPiece(p: Pair)
    requires Clean(p)
    ensures PieceOf(Write(p)) == Option(p)
    ensures ',' !in Write(p)
  {
    TrimSpaceTrimmed(Write(p));
    TrimSpaceTrimmed(p.key);
    TrimSpaceTrimmed(p.value);
    CutAt(p.key, p.value);
  }

  lemma PiecesMore(options: seq<string>, option: string)
    ensures (options + [option])[..|options|] == options
    ensures ParsePieces(options).Some? && PieceOf(option).Option? ==>
      ParsePieces(options + [option]) == Some(ParsePieces(options).value + [PieceOf(option).pair])
  {
    assert (options + [option])[..|options|] == options;
  }

  lemma WrittenMore(pairs: seq<Pair>, pair: Pair)
    requires ParsePieces(WriteAll(pairs)) == Some(pairs) && PieceOf(Write(pair)) == Option(pair)
    ensures ParsePieces(WriteAll(pairs + [pair])) == Some(pairs + [pair])
  {
    assert (pairs + [pair])[..|pairs|] == pairs;
    PiecesMore(WriteAll(pairs), Write(pair));
  }

  lemma {:induction false} WrittenPieces(pairs: seq<Pair>)
    requires forall i :: 0 <= i < |pairs| ==> Clean(pairs[i])
    ensures ParsePieces(WriteAll(pairs)) == Some(pairs)
  {
    if pairs != [] {
      var front, last := pairs[..|pairs| - 1], pairs[|pairs| - 1];
      WrittenPieces(front);
      WrittenPiece(last);
      WrittenMore(front, last);
      assert pairs == front + [last];
    }
  }

  lemma {:induction false} WrittenFree(pairs: seq<Pair>)
    requires forall i :: 0 <= i < |pairs| ==> Clean(pairs[i])
    ensures forall i :: 0 <= i < |pairs| ==> ',' !in WriteAll(pairs)[i]
  {
    if pairs != [] {
      WrittenFree(pairs[..|pairs| - 1]);
      WrittenPiece(pairs[|pairs| - 1]);
    }
  }

  /** Parsing the comma-joined text of clean pairs gives the pairs back; a value may contain "=". */
  lemma ParseWritten(pairs: seq<Pair>)
    requires forall i :: 0 <= i < |pairs| ==> Clean(pairs[i])
    ensures Parse(Join(WriteAll(pairs), ",")) == Some(pairs)
  {
    if pairs == [] {
      NoPieces();
    } else {
      WrittenPieces(pairs);
      WrittenSplit(pairs);
    }
  }

  lemma NoPieces()
    ensures Parse(Join(WriteAll([]), ",")) == Some([])
  {
    assert Split("", ',') == [""] && [""][..0] == [] && TrimSpace("") == "";
  }

  lemma WrittenSplit(pairs: seq<Pair>)
    requires pairs != [] && forall i :: 0 <= i < |pairs| ==> Clean(pairs[i])
    ensures Split(Join(WriteAll(pairs), ","), ',') == WriteAll(pairs)
  {
    WrittenFree(pairs);
    SplitJoin(WriteAll(pairs), ',');
  }

  // ---------- the command-line options ----------

  function Represented(p: Pair): (r: string) {
    "--" + if p.value == "" then EscapeBashStr(p.key) else EscapeBashStr(p.key) + "=" + EscapeBashStr(p.value)
  }

  /** A stripped key refers to an environment variable instead of its value. */
  function Stripped(p: Pair, keys: set<string>): (r: string) {
    "--" +
    if p.value == "" then EscapeBashStr(p.key)
    else if p.key in keys then EscapeBashStr(p.key) + "=${" + p.key + "}"
    else EscapeBashStr(p.key) + "=" + EscapeBashStr(p.value)
  }

  method RepresentFormatOptions(pairs: seq<Pair>) returns (options: seq<string>)
    ensures |options| == |pairs|
    ensures forall i :: 0 <= i < |pairs| ==> options[i] == Represented(pairs[i])
  {
    options := [];
    for i := 0 to |pairs|
      invariant |options| == i
      invariant forall j :: 0 <= j < i ==> options[j] == Represented(pairs[j])
    {
      var option := EscapeBashStr(pairs[i].key);
      if pairs[i].value != "" {
        option := option + "=" + EscapeBashStr(pairs[i].value);
      }
      options := options + ["--" + option];
    }
  }

  method StripFormatOptions(pairs: seq<Pair>, strippedKeys: seq<string>) returns (options: seq<string>)
    ensures |options| == |pairs|
    ensures forall i :: 0 <= i < |pairs| ==> options[i] == Stripped(pairs[i], set k | k in strippedKeys)
  {
    var stripped: set<string> := {};
    for i := 0 to |strippedKeys|
      invariant stripped == set k | k in strippedKeys[..i]
    {
      assert strippedKeys[..i + 1] == strippedKeys[..i] + [strippedKeys[i]];
      stripped := stripped + {strippedKeys[i]};
    }
    assert strippedKeys[..|strippedKeys|] == strippedKeys;
    options := [];
    for i := 0 to |pairs|
      invariant |options| == i
      invariant forall j :: 0 <= j < i ==> options[j] == Stripped(pairs[j], stripped)
    {
      var option := EscapeBashStr(pairs[i].key);
      if pairs[i].value != "" {
        if pairs[i].key in stripped {
          option := option + "=${" + pairs[i].key + "}";
        } else {
          option := option + "=" + EscapeBashStr(pairs[i].value);
        }
      }
      options := options + ["--" + option];
    }
  }

  /** An escaped word never looks like a reference to a variable. */
  lemma EscapedIsNoVariable(s: string, t: string)
    ensures EscapeBashStr(s) != "${" + t
  {
    assert '$' in SPECIALS by {
      assert SPECIALS[0] == '$';
    }
    var variable := "${" + t;
    assert variable[0] == '$' && variable[1] == '{';
    if HasSpecial(s) {
      assert EscapeBashStr(s)[1] == '\'';
    } else {
      assert '$' !in s;
    }
  }

  /** The two forms of an option differ exactly at stripped keys that carry a value. */
  lemma FormsDifferIff(p: Pair, keys: set<string>)
    ensures Represented(p) != Stripped(p, keys) <==> p.key in keys && p.value != ""
  {
    if p.key in keys && p.value != "" {
      var k := EscapeBashStr(p.key);
      EscapedIsNoVariable(p.value, p.key + "}");
      assert Represented(p)[2 + |k| + 1..] == EscapeBashStr(p.value);
      assert Stripped(p, keys)[2 + |k| + 1..] == "${" + (p.key + "}");
    }
  }

  // ---------- what an option says ----------

  /** This printed text names this word, quoted or as it is. */
  lemma EscapedStands(s: string)
    ensures StandsFor(EscapeBashStr(s), s)
  {
    QuotedIff(s);
    SpecialsAre();
    if HasSpecial(s) {
      EscapeRoundTrip(s);
    }
  }

  /** An option is "--", the key, and for a value "=" and the value, or for a stripped key a reference to the variable
      of that name. */
  lemma OptionsSay(p: Pair, keys: set<string>)
    ensures exists k, v ::
      && StandsFor(k, p.key) && StandsFor(v, p.value)
      && Represented(p) == "--" + k + (if p.value == "" then "" else "=" + v)
      && Stripped(p, keys) ==
           "--" + k + (if p.value == "" then "" else if p.key in keys then "=${" + p.key + "}" else "=" + v)
  {
    EscapedStands(p.key);
    EscapedStands(p.value);
    var k, v := EscapeBashStr(p.key), EscapeBashStr(p.value);
    assert "--" + (k + "=" + v) == "--" + k + ("=" + v);
    assert "--" + (k + "=${" + p.key + "}") == "--" + k + ("=${" + p.key + "}");
    assert "--" + k == "--" + k + "";
  }

  /** White space around a piece, its key and its value does not count. */
  lemma LoosePiece(p: Pair, a: string, b: string, c: string, d: string)
    requires Clean(p) && p.value != "" && Blank(a) && Blank(b) && Blank(c) && Blank(d)
    ensures PieceOf(a + (p.key + b + "=" + c + p.value) + d) == Option(p)
  {
    var text := p.key + b + "=" + c + p.value;
    assert text[0] == p.key[0] && text[|text| - 1] == p.value[|p.value| - 1];
    TrimSpaceAround(a, text, d);
    LooseCut(p, b, c);
    TrimSpaceAround("", p.key, b);
    TrimSpaceAround(c, p.value, "");
    assert "" + p.key + b == p.key + b && c + p.value + "" == c + p.value;
  }

  lemma LooseCut(p: Pair, b: string, c: string)
    requires Clean(p) && Blank(b)
    ensures CutEquals(p.key + b + "=" + c + p.value) == (p.key + b, Some(c + p.value))
  {
    assert p.key + b + "=" + c + p.value == (p.key + b) + "=" + (c + p.value);
    assert !IsSpace('=');
    CutAt(p.key + b, c + p.value);
  }
}
