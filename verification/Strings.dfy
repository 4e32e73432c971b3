/** The parts of Go's `strings` and `strconv` packages that the driver relies on, with their round trips. */
module Strings {
  import opened Wrappers

  predicate HasPrefix(s: string, prefix: string) {
    prefix <= s
  }

  predicate HasSuffix(s: string, suffix: string) {
    |suffix| <= |s| && s[|s| - |suffix|..] == suffix
  }

  function TrimPrefix(s: string, prefix: string): (r: string) {
    if prefix <= s then s[|prefix|..] else s
  }

  function TrimSuffix(s: string, suffix: string): (r: string) {
    if HasSuffix(s, suffix) then s[..|s| - |suffix|] else s
  }

  // ---------- strings.Split and strings.Join with a one-character separator ----------

  function Split(s: string, sep: char): (parts: seq<string>)
    ensures |parts| >= 1
  {
    if s == "" then [""]
    else if s[0] == sep then [""] + Split(s[1..], sep)
    else
      var rest := Split(s[1..], sep);
      [[s[0]] + rest[0]] + rest[1..]
  }

  function Join(parts: seq<string>, sep: string): (r: string) {
    if parts == [] then ""
    else if |parts| == 1 then parts[0]
    else parts[0] + sep + Join(parts[1..], sep)
  }

  lemma {:induction false} SplitNoSep(s: string, sep: char)
    requires sep !in s
    ensures Split(s, sep) == [s]
  {
    if s != "" {
      SplitNoSep(s[1..], sep);
      assert s == [s[0]] + s[1..];
    }
  }

  /** A separator after a separator-free head starts a new part. */
  lemma {:induction false} SplitHead(a: string, sep: char, b: string)
    requires sep !in a
    ensures Split(a + [sep] + b, sep) == [a] + Split(b, sep)
  {
    var s := a + [sep] + b;
    if a == "" {
      assert s[1..] == b;
    } else {
      assert s[1..] == a[1..] + [sep] + b;
      SplitHead(a[1..], sep, b);
      assert a == [a[0]] + a[1..];
    }
  }

  lemma {:induction false} SplitConcat(a: string, sep: char, b: string)
    ensures Split(a + [sep] + b, sep) == Split(a, sep) + Split(b, sep)
  {
    var s := a + [sep] + b;
    if a == "" {
      assert s[1..] == b;
    } else {
      assert s[1..] == a[1..] + [sep] + b;
      SplitConcat(a[1..], sep, b);
    }
  }

  /** The text after the last separator is the last part. */
  lemma SplitLast(a: string, sep: char, b: string)
    requires sep !in b
    ensures var parts := Split(a + [sep] + b, sep); parts[|parts| - 1] == b
  {
    SplitConcat(a, sep, b);
    SplitNoSep(b, sep);
  }

  lemma {:induction false} SplitJoin(parts: seq<string>, sep: char)
    requires parts != []
    requires forall p :: p in parts ==> sep !in p
    ensures Split(Join(parts, [sep]), sep) == parts
  {
    if |parts| == 1 {
      SplitNoSep(parts[0], sep);
      assert parts == [parts[0]];
    } else {
      SplitJoin(parts[1..], sep);
      SplitHead(parts[0], sep, Join(parts[1..], [sep]));
      assert parts == [parts[0]] + parts[1..];
    }
  }

  lemma {:induction false} SplitParts(s: string, sep: char)
    ensures forall p :: p in Split(s, sep) ==> sep !in p
    ensures Join(Split(s, sep), [sep]) == s
  {
    if s != "" {
      SplitParts(s[1..], sep);
      var rest := Split(s[1..], sep);
      if s[0] == sep {
        assert ([""] + rest)[1..] == rest;
      } else {
        var parts := [[s[0]] + rest[0]] + rest[1..];
        assert parts[1..] == rest[1..];
        assert forall p :: p in parts[1..] ==> p in rest;
        if |rest| > 1 {
          assert Join(parts, [sep]) == [s[0]] + (rest[0] + [sep] + Join(rest[1..], [sep]));
        }
      }
      assert s == [s[0]] + s[1..];
    }
  }

  lemma {:induction false} JoinMore(parts: seq<string>, sep: string, last: string)
    requires parts != []
    ensures Join(parts + [last], sep) == Join(parts, sep) + sep + last
  {
    if |parts| == 1 {
      assert (parts + [last])[1..] == [last];
    } else {
      assert (parts + [last])[1..] == parts[1..] + [last];
      JoinMore(parts[1..], sep, last);
    }
  }

  lemma {:induction false} JoinFree(parts: seq<string>, sep: string, c: char)
    requires c !in sep
    requires forall p :: p in parts ==> c !in p
    ensures c !in Join(parts, sep)
  {
    if |parts| > 1 {
      JoinFree(parts[1..], sep, c);
    }
  }

  // ---------- white space: strings.TrimSpace and strings.Fields ----------

  /** The white space of `unicode.IsSpace`. */
  predicate IsSpace(c: char) {
    c == ' ' || '\U{9}' <= c <= '\U{D}' || c == '\U{85}' || c == '\U{A0}' || c == '\U{1680}' ||
    '\U{2000}' <= c <= '\U{200A}' || c == '\U{2028}' || c == '\U{2029}' || c == '\U{202F}' || c == '\U{205F}' ||
    c == '\U{3000}'
  }

  predicate SpaceFree(s: string) {
    forall c :: c in s ==> !IsSpace(c)
  }

  function TrimLeft(s: string): (r: string) {
    if s != "" && IsSpace(s[0]) then TrimLeft(s[1..]) else s
  }

  function TrimRight(s: string): (r: string) {
    if s != "" && IsSpace(s[|s| - 1]) then TrimRight(s[..|s| - 1]) else s
  }

  function TrimSpace(s: string): (r: string) {
    TrimRight(TrimLeft(s))
  }

  /** No white space at either end. */
  predicate Trimmed(s: string) {
    s == "" || (!IsSpace(s[0]) && !IsSpace(s[|s| - 1]))
  }

  lemma TrimSpaceTrimmed(s: string)
    requires Trimmed(s)
    ensures TrimSpace(s) == s
  {
  }

  predicate Blank(s: string) {
    forall c :: c in s ==> IsSpace(c)
  }

  lemma {:induction false} TrimLeftAround(a: string, s: string)
    requires Blank(a) && (s == "" || !IsSpace(s[0]))
    ensures TrimLeft(a + s) == s
  {
    if a == "" {
      assert a + s == s;
    } else {
      assert a[0] in a && (a + s)[1..] == a[1..] + s;
      assert forall c :: c in a[1..] ==> c in a;
      TrimLeftAround(a[1..], s);
    }
  }

  lemma {:induction false} TrimRightAround(s: string, b: string)
    requires Blank(b) && (s == "" || !IsSpace(s[|s| - 1]))
    ensures TrimRight(s + b) == s
  {
    if b == "" {
      assert s + b == s;
    } else {
      var n := |b| - 1;
      assert b[n] in b && (s + b)[..|s + b| - 1] == s + b[..n];
      assert forall c :: c in b[..n] ==> c in b;
      TrimRightAround(s, b[..n]);
    }
  }

  lemma {:induction false} TrimLeftBlank(s: string)
    requires Blank(s)
    ensures TrimLeft(s) == ""
  {
    if s != "" {
      assert s[0] in s && forall c :: c in s[1..] ==> c in s;
      TrimLeftBlank(s[1..]);
    }
  }

  /** White space around a text is cut off, and nothing else. */
  lemma TrimSpaceAround(a: string, s: string, b: string)
    requires Blank(a) && Blank(b) && Trimmed(s)
    ensures TrimSpace(a + s + b) == s
  {
    if s == "" {
      assert a + s + b == a + b;
      TrimLeftBlank(a + b);
    } else {
      assert a + s + b == a + (s + b) && (s + b)[0] == s[0];
      TrimLeftAround(a, s + b);
      TrimRightAround(s, b);
    }
  }

  /** The first field of `s` and what follows it. */
  function Word(s: string): (r: (string, string))
    ensures r.0 + r.1 == s
    ensures SpaceFree(r.0)
    ensures r.1 != "" ==> IsSpace(r.1[0])
  {
    if s == "" || IsSpace(s[0]) then ("", s)
    else
      var rest := Word(s[1..]);
      assert ([s[0]] + rest.0) + rest.1 == [s[0]] + (rest.0 + rest.1) == s;
      ([s[0]] + rest.0, rest.1)
  }

  function Fields(s: string): (r: seq<string>)
    decreases |s|
  {
    if s == "" then []
    else if IsSpace(s[0]) then Fields(s[1..])
    else
      var w := Word(s);
      assert w.0 != "";
      [w.0] + Fields(w.1)
  }

  lemma {:induction false} WordHead(a: string, rest: string)
    requires SpaceFree(a)
    requires rest == "" || IsSpace(rest[0])
    ensures Word(a + rest) == (a, rest)
  {
    if a == "" {
      assert a + rest == rest;
    } else {
      assert (a + rest)[1..] == a[1..] + rest;
      WordHead(a[1..], rest);
      assert a == [a[0]] + a[1..];
    }
  }

  /** A field followed by a blank comes first. */
  lemma {:induction false} FieldsHead(a: string, rest: string)
    requires a != "" && SpaceFree(a)
    ensures Fields(a + " " + rest) == [a] + Fields(rest)
    ensures Fields(a) == [a]
  {
    WordHead(a, " " + rest);
    assert a + " " + rest == a + (" " + rest);
    assert (" " + rest)[1..] == rest;
    WordHead(a, "");
    assert a + "" == a;
  }

  lemma {:induction false} FieldsJoin(words: seq<string>)
    requires forall w :: w in words ==> w != "" && SpaceFree(w)
    ensures Fields(Join(words, " ")) == words
  {
    if |words| == 1 {
      assert words[0] in words;
      FieldsHead(words[0], "");
      assert words == [words[0]];
    } else if |words| > 1 {
      assert words[0] in words && forall w :: w in words[1..] ==> w in words;
      FieldsHead(words[0], Join(words[1..], " "));
      FieldsJoin(words[1..]);
      assert words == [words[0]] + words[1..];
    }
  }

  // ---------- decimal numbers ----------

  function Digit(n: nat): (r: char)
    requires n < 10
  {
    '0' + n as char
  }

  predicate IsDigit(c: char) {
    '0' <= c <= '9'
  }

  predicate AllDigits(s: string) {
    forall c :: c in s ==> IsDigit(c)
  }

  /** `strconv.Itoa` on a natural number. */
  function Itoa(n: nat): (s: string)
    ensures s != "" && AllDigits(s)
    ensures ParseNat(s) == n
  {
    if n < 10 then
      assert ParseNat("") == 0;
      [Digit(n)]
    else Itoa(n / 10) + [Digit(n % 10)]
  }

  function ParseNat(s: string): (r: nat)
    requires AllDigits(s)
  {
    if s == "" then 0
    else
      assert s[|s| - 1] in s;
      ParseNat(s[..|s| - 1]) * 10 + (s[|s| - 1] as int - '0' as int)
  }

  /** `strconv.Atoi`: an optional sign and at least one digit. */
  function Atoi(s: string): (r: Option<int>) {
    var digits := if s != "" && (s[0] == '+' || s[0] == '-') then s[1..] else s;
    if digits == "" || !AllDigits(digits) then None
    else
      var n: int := ParseNat(digits);
      Some(if s[0] == '-' then -n else n)
  }

  /** `strconv.Itoa` */
  function IntToString(n: int): (r: string) {
    if n < 0 then "-" + Itoa(-n) else Itoa(n)
  }

  lemma AtoiItoa(n: int)
    ensures Atoi(IntToString(n)) == Some(n)
  {
    if n < 0 {
      assert IntToString(n)[1..] == Itoa(-n);
    } else {
      assert Itoa(n)[0] in Itoa(n);
    }
  }

  lemma ItoaInjective(m: nat, n: nat)
    requires Itoa(m) == Itoa(n)
    ensures m == n
  {
    assert ParseNat(Itoa(m)) == m;
  }
}
