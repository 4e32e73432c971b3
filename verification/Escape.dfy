/** Quoting of command-line words, against the shell that reads them back
    (ANSI-C quoting, section 3.1.2.4 of the Bash Reference Manual). */
module Escape {
  import opened Wrappers

  const SPECIALS: seq<char> := ['$', '`', '&', ';', '>', '|', '(', ')']

  predicate HasSpecial(s: string) {
    exists c :: c in s && c in SPECIALS
  }

  /** `containsOne`: a set filled from `chars`, then one pass over `target`. */
  method ContainsOne(target: string, chars: seq<char>) returns (found: bool)
    ensures found <==> exists c :: c in target && c in chars
  {
    var charMap: set<char> := {};
    for i := 0 to |chars|
      invariant charMap == set c | c in chars[..i]
    {
      assert chars[..i + 1] == chars[..i] + [chars[i]];
      charMap := charMap + {chars[i]};
    }
    assert chars[..|chars|] == chars;
    for i := 0 to |target|
      invariant forall c :: c in target[..i] ==> c !in chars
    {
      if target[i] in charMap {
        return true;
      }
      assert target[..i + 1] == target[..i] + [target[i]];
    }
    assert target[..|target|] == target;
    found := false;
  }

  /** `strings.ReplaceAll` of a single character. */
  function ReplaceAll(s: string, c: char, replacement: string): (r: string) {
    if s == "" then "" else (if s[0] == c then replacement else [s[0]]) + ReplaceAll(s[1..], c, replacement)
  }

  function EscapeBashStr(s: string): (r: string) {
    if !HasSpecial(s) then s
    else "$'" + ReplaceAll(ReplaceAll(s, '\\', "\\\\"), '\'', "\\'") + "'"
  }

  /** `QuoteForShell`, applied to a whole command line. */
  function QuoteForShell(cmd: string): (r: string) {
    ReplaceAll(ReplaceAll(cmd, '(', "\\("), ')', "\\)")
  }

  // ---------- the shell ----------

  /** The character that a one-character escape stands for. */
  function Simple(c: char): (r: Option<char>) {
    match c
    case 'a' => Some('\U{07}')
    case 'b' => Some('\U{08}')
    case 'e' => Some('\U{1B}')
    case 'E' => Some('\U{1B}')
    case 'f' => Some('\U{0C}')
    case 'n' => Some('\n')
    case 'r' => Some('\r')
    case 't' => Some('\t')
    case 'v' => Some('\U{0B}')
    case '\\' => Some('\\')
    case '\'' => Some('\'')
    case '\"' => Some('\"')
    case '?' => Some('?')
    case _ => None
  }

  /** Octal, hexadecimal, Unicode and control escapes; they never arise here. */
  predicate Numeric(c: char) {
    '0' <= c <= '7' || c in "xuUc"
  }

  /** Reads up to the closing quote, which must end the word. A backslash before any other character stays. */
  function Unquote(s: string): (r: Option<string>) {
    if s == "" then None
    else if s[0] == '\'' then (if |s| == 1 then Some("") else None)
    else if s[0] != '\\' then Prepend([s[0]], Unquote(s[1..]))
    else if |s| == 1 || Numeric(s[1]) then None
    else if Simple(s[1]).Some? then Prepend([Simple(s[1]).value], Unquote(s[2..]))
    else Prepend(s[..2], Unquote(s[2..]))
  }

  function Prepend(s: string, rest: Option<string>): (r: Option<string>) {
    match rest
    case None => None
    case Some(r) => Some(s + r)
  }

  /** The value of a word of the form `$'...'`. */
  function Decode(word: string): (r: Option<string>) {
    if "$'" <= word then Unquote(word[2..]) else None
  }

  /** Where the scan for the closing quote stops. */
  function ClosingQuote(s: string): (r: nat) {
    if s == "" || s[0] == '\'' then 0
    else if s[0] == '\\' && |s| > 1 then 2 + ClosingQuote(s[2..])
    else 1 + ClosingQuote(s[1..])
  }

  // ---------- the two passes are one map ----------

  function EscapeChar(c: char): (r: string) {
    if c == '\\' then "\\\\" else if c == '\'' then "\\'" else [c]
  }

  function EscapeAll(s: string): (r: string) {
    if s == "" then "" else EscapeChar(s[0]) + EscapeAll(s[1..])
  }

  lemma {:induction false} ReplaceConcat(a: string, b: string, c: char, replacement: string)
    ensures ReplaceAll(a + b, c, replacement) == ReplaceAll(a, c, replacement) + ReplaceAll(b, c, replacement)
  {
    if a == "" {
      assert a + b == b;
    } else {
      assert (a + b)[1..] == a[1..] + b;
      ReplaceConcat(a[1..], b, c, replacement);
    }
  }

  lemma {:induction false} ReplaceNone(s: string, c: char, replacement: string)
    requires c !in s
    ensures ReplaceAll(s, c, replacement) == s
  {
    if s != "" {
      ReplaceNone(s[1..], c, replacement);
    }
  }

  lemma {:induction false} TwoPassesAreOneMap(s: string)
    ensures ReplaceAll(ReplaceAll(s, '\\', "\\\\"), '\'', "\\'") == EscapeAll(s)
  {
    if s != "" {
      TwoPassesAreOneMap(s[1..]);
      var head := if s[0] == '\\' then "\\\\" else [s[0]];
      ReplaceConcat(head, ReplaceAll(s[1..], '\\', "\\\\"), '\'', "\\'");
      assert ReplaceAll(head, '\'', "\\'") == EscapeChar(s[0]) by {
        if s[0] == '\\' {
          ReplaceNone(head, '\'', "\\'");
        } else {
          assert head[1..] == "";
        }
      }
    }
  }

  // ---------- round trip ----------

  predicate IsParen(c: char) {
    c == '(' || c == ')'
  }

  lemma UnquoteBackslashed(c: char, rest: string)
    requires c == '\\' || c == '\''
    ensures Unquote(['\\', c] + rest) == Prepend([c], Unquote(rest))
    ensures ClosingQuote(['\\', c] + rest) == 2 + ClosingQuote(rest)
  {
    var t := ['\\', c] + rest;
    assert t[0] == '\\' && t[1] == c && t[2..] == rest;
  }

  lemma UnquotePlain(c: char, rest: string)
    requires c != '\\' && c != '\''
    ensures Unquote([c] + rest) == Prepend([c], Unquote(rest))
    ensures ClosingQuote([c] + rest) == 1 + ClosingQuote(rest)
  {
    var t := [c] + rest;
    assert t[0] == c && t[1..] == rest;
  }

  lemma UnquoteOther(t: string)
    requires |t| > 1 && t[0] == '\\' && IsParen(t[1])
    ensures Unquote(t) == Prepend(t[..2], Unquote(t[2..]))
  {
  }

  lemma UnquoteParen(c: char, rest: string)
    requires IsParen(c)
    ensures Unquote(['\\', c] + rest) == Prepend(['\\', c], Unquote(rest))
  {
    var t := ['\\', c] + rest;
    UnquoteOther(t);
    assert t[..2] == ['\\', c];
    assert t[2..] == rest;
  }

  lemma UnquoteHead(c: char, rest: string)
    ensures Unquote(EscapeChar(c) + rest) == Prepend([c], Unquote(rest))
    ensures ClosingQuote(EscapeChar(c) + rest) == |EscapeChar(c)| + ClosingQuote(rest)
    ensures IsParen(c) ==> Unquote(['\\', c] + rest) == Prepend(['\\', c], Unquote(rest))
  {
    if c == '\\' {
      UnquoteBackslashed(c, rest);
      assert EscapeChar(c) == ['\\', c];
    } else if c == '\'' {
      UnquoteBackslashed(c, rest);
      assert EscapeChar(c) == ['\\', c];
    } else {
      UnquotePlain(c, rest);
      if IsParen(c) {
        UnquoteParen(c, rest);
      }
    }
  }

  lemma {:induction false} UnquoteEscaped(s: string)
    ensures Unquote(EscapeAll(s) + "'") == Some(s)
    ensures ClosingQuote(EscapeAll(s) + "'") == |EscapeAll(s)|
  {
    if s != "" {
      UnquoteEscaped(s[1..]);
      var rest := EscapeAll(s[1..]) + "'";
      assert EscapeAll(s) + "'" == EscapeChar(s[0]) + rest;
      UnquoteHead(s[0], rest);
      assert s == [s[0]] + s[1..];
    }
  }

  /** On the quoted branch the shell reads the word back, and the last character is the quote that closes it. */
  lemma EscapeRoundTrip(s: string)
    requires HasSpecial(s)
    ensures Decode(EscapeBashStr(s)) == Some(s)
    ensures 2 + ClosingQuote(EscapeBashStr(s)[2..]) == |EscapeBashStr(s)| - 1
  {
    EscapedForm(s);
    UnquoteEscaped(s);
    DecodeForm(EscapeAll(s) + "'");
  }

  lemma EscapedForm(s: string)
    requires HasSpecial(s)
    ensures EscapeBashStr(s) == "$'" + (EscapeAll(s) + "'")
  {
    TwoPassesAreOneMap(s);
  }

  lemma DecodeForm(body: string)
    ensures Decode("$'" + body) == Unquote(body) && ("$'" + body)[2..] == body
  {
  }

  // ---------- quoting the command line once more ----------

  /** What the shell reads when a quoted word went through `QuoteForShell`: a backslash before each parenthesis. */
  function BackslashParens(s: string): (r: string) {
    if s == "" then "" else (if IsParen(s[0]) then ['\\', s[0]] else [s[0]]) + BackslashParens(s[1..])
  }

  lemma QuoteConcat(a: string, b: string)
    ensures QuoteForShell(a + b) == QuoteForShell(a) + QuoteForShell(b)
  {
    ReplaceConcat(a, b, '(', "\\(");
    ReplaceConcat(ReplaceAll(a, '(', "\\("), ReplaceAll(b, '(', "\\("), ')', "\\)");
  }

  lemma QuoteNone(s: string)
    requires '(' !in s && ')' !in s
    ensures QuoteForShell(s) == s
  {
    ReplaceNone(s, '(', "\\(");
    ReplaceNone(s, ')', "\\)");
  }

  lemma QuoteChar(c: char)
    ensures QuoteForShell(EscapeChar(c)) == if IsParen(c) then ['\\', c] else EscapeChar(c)
  {
    if c == '(' {
      assert ReplaceAll("(", '(', "\\(") == "\\(" + ReplaceAll("", '(', "\\(");
      ReplaceNone("\\(", ')', "\\)");
    } else if c == ')' {
      ReplaceNone(")", '(', "\\(");
      assert ReplaceAll(")", ')', "\\)") == "\\)" + ReplaceAll("", ')', "\\)");
    } else {
      QuoteNone(EscapeChar(c));
    }
  }

  lemma {:induction false} UnquoteQuoted(s: string)
    ensures Unquote(QuoteForShell(EscapeAll(s)) + "'") == Some(BackslashParens(s))
  {
    if s != "" {
      UnquoteQuoted(s[1..]);
      QuoteConcat(EscapeChar(s[0]), EscapeAll(s[1..]));
      QuoteChar(s[0]);
      var head := if IsParen(s[0]) then ['\\', s[0]] else EscapeChar(s[0]);
      var rest := QuoteForShell(EscapeAll(s[1..])) + "'";
      var t := QuoteForShell(EscapeAll(s)) + "'";
      assert t == head + rest;
      UnquoteHead(s[0], rest);
    }
  }

  lemma {:induction false} BackslashParensIff(s: string)
    ensures |BackslashParens(s)| >= |s|
    ensures BackslashParens(s) == s <==> '(' !in s && ')' !in s
  {
    if s != "" {
      BackslashParensIff(s[1..]);
      assert s == [s[0]] + s[1..];
    }
  }

  lemma QuotedTwice(s: string)
    requires HasSpecial(s)
    ensures QuoteForShell(EscapeBashStr(s)) == "$'" + (QuoteForShell(EscapeAll(s)) + "'")
  {
    EscapedForm(s);
    assert EscapeBashStr(s) == "$'" + EscapeAll(s) + "'";
    QuoteAround("$'", EscapeAll(s), "'");
  }

  lemma QuoteAround(before: string, s: string, after: string)
    requires '(' !in before && ')' !in before && '(' !in after && ')' !in after
    ensures QuoteForShell(before + s + after) == before + (QuoteForShell(s) + after)
  {
    QuoteConcat(before + s, after);
    QuoteConcat(before, s);
    QuoteNone(before);
    QuoteNone(after);
  }

  /** A quoted word survives the second quoting exactly when it has no parenthesis. */
  lemma QuotedTwiceIff(s: string)
    requires HasSpecial(s)
    ensures Decode(QuoteForShell(EscapeBashStr(s))) == Some(s) <==> '(' !in s && ')' !in s
  {
    QuotedTwice(s);
    DecodeForm(QuoteForShell(EscapeAll(s)) + "'");
    UnquoteQuoted(s);
    BackslashParensIff(s);
  }

  /** The characters at which the driver quotes a word. */
  predicate MustQuote(c: char) {
    c == '$' || c == '`' || c == '&' || c == ';' || c == '>' || c == '|' || c == '(' || c == ')'
  }

  /** A word is quoted exactly when it has such a character; otherwise it is left as it is. */
  lemma QuotedIff(s: string)
    ensures "$'" <= EscapeBashStr(s) <==> exists c :: c in s && MustQuote(c)
    ensures (forall c :: c in s ==> !MustQuote(c)) ==> EscapeBashStr(s) == s
  {
    SpecialsAre();
    if HasSpecial(s) {
      EscapedForm(s);
    } else if "$'" <= s {
      assert s[0] in s && s[0] == '$';
    }
  }

  lemma SpecialsAre()
    ensures forall c :: c in SPECIALS <==> MustQuote(c)
  {
    assert SPECIALS[0] == '$' && SPECIALS[1] == '`' && SPECIALS[2] == '&' && SPECIALS[3] == ';';
    assert SPECIALS[4] == '>' && SPECIALS[5] == '|' && SPECIALS[6] == '(' && SPECIALS[7] == ')';
  }

  /** A printed word stands for this text: quoted, or as it is. */
  predicate StandsFor(word: string, text: string) {
    if "$'" <= word then Decode(word) == Some(text) else word == text
  }

  /** On a printed command line, a word without parentheses stands for itself. */
  lemma PrintedStands(s: string)
    requires '(' !in s && ')' !in s
    ensures StandsFor(QuoteForShell(EscapeBashStr(s)), s)
  {
    QuotedIff(s);
    SpecialsAre();
    if HasSpecial(s) {
      QuotedTwice(s);
      QuotedTwiceIff(s);
    } else {
      QuoteNone(s);
    }
  }

  /** The second quoting leaves a backslash before the parenthesis. */
  lemma ParenthesisIsBackslashed()
    ensures EscapeBashStr("f(") == "$'f('"
    ensures Decode(QuoteForShell(EscapeBashStr("f("))) == Some("f\\(")
  {
    var s := "f(";
    assert s[1] in s && s[1] in SPECIALS;
    TwoPassesAreOneMap(s);
    assert s[1..] == "(" && "("[1..] == "";
    assert EscapeAll(s) == s;
    assert BackslashParens(s) == "f\\(";
    QuotedTwice(s);
    UnquoteQuoted(s);
  }
}
