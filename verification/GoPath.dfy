/** Go's `path.Clean` and `path.Join`, and the normal form of a path that is rooted at "/". */
module GoPath {
  import opened Strings

  /** The path elements that count: "" and "." do not. */
  function Significant(parts: seq<string>): (r: seq<string>) {
    if parts == [] then []
    else (if parts[0] == "" || parts[0] == "." then [] else [parts[0]]) + Significant(parts[1..])
  }

  function Elements(p: string): (r: seq<string>) {
    Significant(Split(p, '/'))
  }

  /** One element onto the path walked so far; ".." steps back, at the root it stays. */
  function Push(walked: seq<string>, e: string, rooted: bool): (r: seq<string>) {
    if e != ".." then walked + [e]
    else if walked != [] && walked[|walked| - 1] != ".." then walked[..|walked| - 1]
    else if rooted then walked
    else walked + [e]
  }

  function Reduce(elements: seq<string>, rooted: bool): (r: seq<string>) {
    if elements == [] then []
    else Push(Reduce(elements[..|elements| - 1], rooted), elements[|elements| - 1], rooted)
  }

  function Clean(p: string): (r: string) {
    if p == "" then "."
    else
      var rooted := p[0] == '/';
      var body := Join(Reduce(Elements(p), rooted), "/");
      if rooted then "/" + body else if body == "" then "." else body
  }

  /** `path.Join` of two elements. */
  function PathJoin(a: string, b: string): (r: string) {
    if a != "" then Clean(a + "/" + b) else if b != "" then Clean(b) else ""
  }

  /** A path rooted at "/" and cleaned. */
  function Rooted(p: string): (r: string) {
    PathJoin("/", p)
  }

  // ---------- elements ----------

  predicate Element(e: string) {
    e != "" && e != "." && '/' !in e
  }

  lemma {:induction false} SignificantConcat(a: seq<string>, b: seq<string>)
    ensures Significant(a + b) == Significant(a) + Significant(b)
  {
    if a == [] {
      assert a + b == b;
    } else {
      assert (a + b)[1..] == a[1..] + b;
      SignificantConcat(a[1..], b);
    }
  }

  lemma {:induction false} SignificantOf(parts: seq<string>)
    requires forall e :: e in parts ==> Element(e)
    ensures Significant(parts) == parts
  {
    if parts != [] {
      assert parts[0] in parts;
      assert forall e :: e in parts[1..] ==> e in parts;
      SignificantOf(parts[1..]);
    }
  }

  lemma {:induction false} SignificantAre(parts: seq<string>)
    requires forall e :: e in parts ==> '/' !in e
    ensures forall e :: e in Significant(parts) ==> Element(e)
  {
    if parts != [] {
      assert parts[0] in parts;
      assert forall e :: e in parts[1..] ==> e in parts;
      SignificantAre(parts[1..]);
    }
  }

  lemma ElementsAre(p: string)
    ensures forall e :: e in Elements(p) ==> Element(e)
  {
    SplitParts(p, '/');
    SignificantAre(Split(p, '/'));
  }

  lemma ElementsConcat(a: string, b: string)
    ensures Elements(a + "/" + b) == Elements(a) + Elements(b)
  {
    SplitConcat(a, '/', b);
    SignificantConcat(Split(a, '/'), Split(b, '/'));
  }

  lemma ElementsRooted(p: string)
    ensures Elements("/" + p) == Elements(p)
  {
    ElementsConcat("", p);
    assert "" + "/" + p == "/" + p;
  }

  lemma ElementsJoin(elements: seq<string>)
    requires forall e :: e in elements ==> Element(e)
    ensures Elements(Join(elements, "/")) == elements
    ensures Join(elements, "/") == "" <==> elements == []
  {
    if elements != [] {
      SplitJoin(elements, '/');
      SignificantOf(elements);
      assert elements[0] in elements;
    }
  }

  // ---------- reduction ----------

  lemma {:induction false} ReduceAre(elements: seq<string>, rooted: bool)
    requires forall e :: e in elements ==> Element(e)
    ensures forall e :: e in Reduce(elements, rooted) ==> Element(e)
    ensures rooted ==> ".." !in Reduce(elements, rooted)
  {
    if elements != [] {
      var front := elements[..|elements| - 1];
      assert forall e :: e in front ==> e in elements;
      ReduceAre(front, rooted);
      assert elements[|elements| - 1] in elements;
    }
  }

  lemma ReduceThen(elements: seq<string>, e: string, rooted: bool)
    ensures Reduce(elements + [e], rooted) == Push(Reduce(elements, rooted), e, rooted)
  {
    assert (elements + [e])[..|elements|] == elements;
  }

  /** Walking on from the root after one step. */
  lemma PushAgain(walked: seq<string>, e: string, rooted: bool)
    requires rooted ==> ".." !in walked
    ensures Reduce(Push(walked, e, rooted), true) == Push(Reduce(walked, true), e, true)
  {
    ReduceThen(walked, e, true);
    if e == ".." && walked != [] && walked[|walked| - 1] != ".." {
      var front := walked[..|walked| - 1];
      assert walked == front + [walked[|walked| - 1]];
      ReduceThen(front, walked[|walked| - 1], true);
    }
  }

  /** Cleaning first and rooting later gives the same elements as rooting at once. */
  lemma {:induction false} ReduceAgain(elements: seq<string>, rooted: bool)
    requires forall e :: e in elements ==> Element(e)
    ensures Reduce(Reduce(elements, rooted), true) == Reduce(elements, true)
  {
    if elements != [] {
      var front := elements[..|elements| - 1];
      assert forall e :: e in front ==> e in elements;
      ReduceAgain(front, rooted);
      ReduceAre(front, rooted);
      PushAgain(Reduce(front, rooted), elements[|elements| - 1], rooted);
    }
  }

  lemma {:induction false} ReducePrefix(a: seq<string>, b: seq<string>, rooted: bool)
    requires forall e :: e in a ==> Element(e)
    ensures Reduce(Reduce(a, rooted) + b, true) == Reduce(a + b, true)
  {
    if b == [] {
      assert Reduce(a, rooted) + b == Reduce(a, rooted) && a + b == a;
      ReduceAgain(a, rooted);
    } else {
      var front, last := b[..|b| - 1], b[|b| - 1];
      ReducePrefix(a, front, rooted);
      assert Reduce(a, rooted) + b == (Reduce(a, rooted) + front) + [last];
      assert a + b == (a + front) + [last];
      ReduceThen(Reduce(a, rooted) + front, last, true);
      ReduceThen(a + front, last, true);
    }
  }

  // ---------- what ".." does ----------

  /** Without "..", a path is walked as it is. */
  lemma {:induction false} NoStepBack(elements: seq<string>, rooted: bool)
    requires ".." !in elements
    ensures Reduce(elements, rooted) == elements
  {
    if elements != [] {
      var front := elements[..|elements| - 1];
      NoStepBack(front, rooted);
      assert elements == front + [elements[|elements| - 1]];
    }
  }

  /** Wherever ".." follows another element, both can be left out. */
  lemma {:induction false} StepBack(a: seq<string>, e: string, b: seq<string>, rooted: bool)
    requires e != ".."
    ensures Reduce(a + [e, ".."] + b, rooted) == Reduce(a + b, rooted)
  {
    if b == [] {
      assert a + [e, ".."] + b == (a + [e]) + [".."] && a + b == a;
      ReduceThen(a, e, rooted);
      ReduceThen(a + [e], "..", rooted);
    } else {
      var front, last := b[..|b| - 1], b[|b| - 1];
      StepBack(a, e, front, rooted);
      assert a + [e, ".."] + b == (a + [e, ".."] + front) + [last];
      assert a + b == (a + front) + [last];
      ReduceThen(a + [e, ".."] + front, last, rooted);
      ReduceThen(a + front, last, rooted);
    }
  }

  lemma PushBehind(walked: seq<string>, e: string)
    ensures Push([".."] + walked, e, false) == [".."] + Push(walked, e, false)
  {
    var all := [".."] + walked;
    if walked != [] {
      assert all[..|all| - 1] == [".."] + walked[..|walked| - 1];
      assert all[|all| - 1] == walked[|walked| - 1];
    }
    assert all + [e] == [".."] + (walked + [e]);
  }

  /** A ".." at the start is left out at the root, and kept otherwise. */
  lemma {:induction false} StepBackFirst(b: seq<string>, rooted: bool)
    ensures Reduce([".."] + b, rooted) == if rooted then Reduce(b, true) else [".."] + Reduce(b, false)
  {
    if b == [] {
      assert [".."] + b == [] + [".."];
      ReduceThen([], "..", rooted);
    } else {
      var front, last := b[..|b| - 1], b[|b| - 1];
      StepBackFirst(front, rooted);
      assert [".."] + b == ([".."] + front) + [last];
      ReduceThen([".."] + front, last, rooted);
      PushBehind(Reduce(front, false), last);
    }
  }

  // ---------- cleaned paths ----------

  lemma ElementsClean(p: string)
    requires p != ""
    ensures Elements(Clean(p)) == Reduce(Elements(p), p[0] == '/')
  {
    var rooted := p[0] == '/';
    ElementsAre(p);
    ReduceAre(Elements(p), rooted);
    ElementsJoin(Reduce(Elements(p), rooted));
    ElementsRooted(Join(Reduce(Elements(p), rooted), "/"));
    SplitNoSep(".", '/');
  }

  /** A path is in its clean form already when its elements are joined by single slashes and none is "..". */
  lemma CleanIsNormal(elements: seq<string>, rooted: bool)
    requires elements != [] && forall e :: e in elements ==> Element(e) && e != ".."
    ensures var p := (if rooted then "/" else "") + Join(elements, "/"); Clean(p) == p
  {
    var body := Join(elements, "/");
    var p := (if rooted then "/" else "") + body;
    ElementsJoin(elements);
    ElementsRooted(body);
    assert "" + body == body;
    NoStepBack(elements, rooted);
    assert elements[0] in elements;
    StartsWith(elements);
  }

  lemma StartsWith(elements: seq<string>)
    requires elements != [] && Element(elements[0])
    ensures Join(elements, "/") != "" && Join(elements, "/")[0] == elements[0][0] != '/'
  {
    assert elements[0][0] in elements[0];
  }

  /** The rooted form depends on the elements alone, and ".." never leaves the root. */
  lemma RootedIs(p: string)
    ensures Rooted(p) == "/" + Join(Reduce(Elements(p), true), "/")
    ensures ".." !in Reduce(Elements(p), true)
  {
    ElementsAre(p);
    ReduceAre(Elements(p), true);
    var q := "/" + "/" + p;
    assert q == "/" + ("/" + p);
    ElementsRooted("/" + p);
    ElementsRooted(p);
  }

  /** Joining and rooting: as if the elements of both were walked from the root. */
  lemma RootedJoin(a: string, b: string)
    requires a != "" || b != ""
    ensures Reduce(Elements(PathJoin(a, b)), true) == Reduce(Elements(a) + Elements(b), true)
  {
    var p := if a != "" then a + "/" + b else b;
    ElementsClean(p);
    ElementsAre(p);
    ReduceAgain(Elements(p), p[0] == '/');
    if a != "" {
      ElementsConcat(a, b);
    } else {
      assert Elements("") == [];
      assert Elements(a) + Elements(b) == Elements(b);
    }
  }
}
